/** The store and its operations as they run: one connection, transactions that commit or roll back, and armed crash
    points (v5/store.py:256-294). Each method is proved equal to its transaction function; a method that crashes
    inside a transaction leaves the database as it found it. */
module Stores {
  import opened Types
  import opened Graphs
  import opened Obligations
  import opened Safety
  import opened Execution
  import opened EvidencePipeline
  import opened Work
  import opened Repair
  import opened Invariants
  import opened Kernel
  import opened Acceptance
  import opened Recovery
  import opened Refinement
  import opened StalePlans
  import opened Confirming
  import opened Drivability
  import D = Driving

  class Store {
    var db: Db
    var armed: set<CrashPoint>
    /** Every call of a capability: the external effects. */
    ghost var invoked: seq<Invocation>

    constructor ()
      ensures db == EMPTY_DB && armed == {} && invoked == []
    {
      db, armed, invoked := EMPTY_DB, {}, [];
    }

    method ArmCrash(p: CrashPoint)
      modifies this`armed
      ensures armed == old(armed) + {p}
    {
      armed := armed + {p};
    }

    /** Fires once. */
    method Crashes(p: CrashPoint) returns (crashed: bool)
      modifies this`armed
      ensures crashed <==> p in old(armed)
      ensures armed == old(armed) - {p}
    {
      crashed := p in armed;
      armed := armed - {p};
    }

    // -------------------------------------------------------------- goals, tasks, plans

    method CreateGoal(policy: Policy) returns (r: Result)
      modifies this`db
      ensures Tx(db, r) == CreateGoalTx(old(db), policy)
    {
      var id := Id(GoalK, db.next);
      db := db.(next := db.next + 1, goals := db.goals[id := Goal(0, GActive, policy, Sound)]);
      return Ok(Some(id), 0);
    }

    method CreateTask(goal: Id, policy: Policy, maxAttempts: int, used: int, expected: Option<nat>) returns (r: Result)
      modifies this`db
      ensures Tx(db, r) == CreateTaskTx(old(db), goal, policy, maxAttempts, used, expected)
    {
      if goal !in db.goals { return Rejected(NotFound); }
      if expected.Some? && db.goals[goal].revision != expected.value { return Rejected(StaleRevision); }
      if GoalTerminal(db.goals[goal].status) { return Rejected(AlreadyTerminal); }
      var id := Id(TaskK, db.next);
      db := db.(next := db.next + 1, tasks := db.tasks[id := Task(0, goal, TPending, None, policy, maxAttempts, used, Sound)]);
      return Ok(Some(id), 0);
    }

    method CreatePlan(task: Id) returns (r: Result)
      modifies this`db
      ensures Tx(db, r) == CreatePlanTx(old(db), task)
    {
      if task !in db.tasks { return Rejected(NotFound); }
      if TaskTerminal(db.tasks[task].status) { return Rejected(AlreadyTerminal); }
      var id := Id(PlanK, db.next);
      db := db.(next := db.next + 1, plans := db.plans[id := Plan(0, task, PDraft, None, map[])]);
      return Ok(Some(id), 0);
    }

    // ------------------------------------------------------------- steps and graphs

    method CreateStep(plan: Id, required: bool, dependsOn: set<Id>, capability: string) returns (r: Result)
      modifies this`db
      ensures Tx(db, r) == CreateStepTx(old(db), plan, required, dependsOn, capability)
    {
      if plan !in db.plans { return Rejected(NotFound); }
      var p := db.plans[plan];
      if PlanTerminal(p.status) { return Rejected(AlreadyTerminal); }
      var id := Id(StepK, db.next);
      var graph := p.graph[id := dependsOn];
      var cyclic := HasCycle(graph);
      if cyclic { return Rejected(DependencyCycle); }
      db := db.(next := db.next + 1, steps := db.steps[id := Step(0, plan, SPending, required, dependsOn, capability)]);
      db := db.(plans := db.plans[plan := p.(graph := graph, revision := p.revision + 1)]);
      return Ok(Some(id), 0);
    }

    method AddDependency(plan: Id, step: Id, on: Id, expected: nat) returns (r: Result)
      modifies this`db
      ensures Tx(db, r) == AddDependencyTx(old(db), plan, step, on, expected)
    {
      if plan !in db.plans { return Rejected(NotFound); }
      var p := db.plans[plan];
      if p.revision != expected { return Rejected(StaleRevision); }
      if step == on { return Rejected(DependencyCycle); }
      if !StepOf(db, step, plan) || !StepOf(db, on, plan) { return Rejected(NotFound); }
      var graph := p.graph[step := Succ(p.graph, step) + {on}];
      var cyclic := HasCycle(graph);
      if cyclic { return Rejected(DependencyCycle); }
      db := db.(plans := db.plans[plan := p.(graph := graph, revision := p.revision + 1)]);
      var s := db.steps[step];
      db := db.(steps := db.steps[step := s.(dependsOn := s.dependsOn + {on})]);
      return Ok(None, 0);
    }

    // ------------------------------------------------- claims, verifications, bindings

    method ConfidenceJustified(basedOn: seq<Id>, c: Confidence) returns (ok: bool)
      ensures ok == Justified(db, basedOn, c)
    {
      if c != High { return true; }
      for i := 0 to |basedOn|
        invariant forall j :: 0 <= j < i ==>
                    !(basedOn[j] in db.evidence && db.evidence[basedOn[j]].status in {ConfirmedSource, ConfirmedRuntime})
      {
        if basedOn[i] in db.evidence && db.evidence[basedOn[i]].status in {ConfirmedSource, ConfirmedRuntime} {
          return true;
        }
      }
      return false;
    }

    method AllCited(basedOn: seq<Id>) returns (ok: bool)
      ensures ok == Cited(db, basedOn)
    {
      for i := 0 to |basedOn|
        invariant forall j :: 0 <= j < i ==> basedOn[j] in db.evidence
      {
        if basedOn[i] !in db.evidence { return false; }
      }
      return true;
    }

    method CreateClaimLocked(basedOn: seq<Id>, c: Confidence) returns (r: Result)
      modifies this`db
      ensures Tx(db, r) == CreateClaimTx(old(db), basedOn, c)
    {
      var cited := AllCited(basedOn);
      if !cited { return Rejected(NotFound); }
      var justified := ConfidenceJustified(basedOn, c);
      if !justified { return Rejected(ConfidenceNotJustified); }
      var id := Id(ClaimK, db.next);
      db := db.(next := db.next + 1, claims := db.claims[ClaimKey(id, 1) := Claim(basedOn, c)]);
      return Ok(Some(id), 0);
    }

    /** ORDER BY version DESC LIMIT 1. */
    method NewestVersion(id: Id) returns (v: Option<nat>)
      ensures v.Some? ==> Newest(db.claims, id, v.value)
      ensures v.None? ==> !ClaimExists(db, id)
    {
      v := None;
      var todo := db.claims.Keys;
      ghost var seen: set<ClaimKey> := {};
      while todo != {}
        invariant seen + todo == db.claims.Keys
        invariant v.Some? ==> ClaimKey(id, v.value) in db.claims && forall k :: k in seen && k.id == id ==> k.version <= v.value
        invariant v.None? ==> forall k :: k in seen ==> k.id != id
        decreases |todo|
      {
        var k :| k in todo;
        if k.id == id && (v.None? || k.version > v.value) { v := Some(k.version); }
        todo, seen := todo - {k}, seen + {k};
      }
    }

    method ReviseClaim(id: Id, basedOn: seq<Id>, c: Confidence) returns (r: Result)
      modifies this`db
      ensures Tx(db, r) == ReviseClaimTx(old(db), id, basedOn, c)
    {
      var newest := NewestVersion(id);
      if newest.None? {
        assert Versions(db.claims, id) == {} by { assert !ClaimExists(db, id); }
        return Rejected(NotFound);
      }
      assert newest.value in Versions(db.claims, id) by { assert ClaimKey(id, newest.value) in db.claims; }
      assert forall v :: v in Versions(db.claims, id) ==> v <= newest.value;
      var cited := AllCited(basedOn);
      if !cited { return Rejected(NotFound); }
      var justified := ConfidenceJustified(basedOn, c);
      if !justified { return Rejected(ConfidenceNotJustified); }
      db := db.(claims := db.claims[ClaimKey(id, newest.value + 1) := Claim(basedOn, c)]);
      return Ok(None, 0);
    }

    method CreateVerificationLocked(claim: Id, methodName: string, level: string, step: Option<Id>) returns (r: Result)
      modifies this`db
      ensures Tx(db, r) == CreateVerificationTx(old(db), claim, methodName, level, step)
    {
      if level !in LEVELS { return Rejected(InvalidIndependence); }
      if !ClaimExists(db, claim) { return Rejected(NotFound); }
      if step.Some? && step.value !in db.steps { return Rejected(NotFound); }
      var id := Id(VerificationK, db.next);
      db := db.(next := db.next + 1,
                verifications := db.verifications[id := Verification(claim, methodName, level, VPending, step, false)]);
      return Ok(Some(id), 0);
    }

    method BindLocked(obj: Id, ver: Id) returns (r: Result)
      modifies this`db
      ensures Tx(db, r) == BindTx(old(db), obj, ver)
    {
      match Load(db, obj) {
        case NoObject => return Rejected(NotFound);
        case APlan(_) => return Rejected(InvalidTransition);
        case AStep(_) => return Rejected(InvalidTransition);
        case AnAction(_) => return Rejected(InvalidTransition);
        case _ =>
      }
      if ver !in db.verifications { return Rejected(NotFound); }
      db := db.(required := db.required + {(obj, ver)});
      return Ok(None, 0);
    }

    // ------------------------------------------------------------- plan acceptance

    /** The re-validation of a proposal, check by check in source order. */
    method ValidateSpecs(reg: Registry, specs: seq<StepSpec>) returns (fault: Option<Reason>)
      ensures fault == ProposalFault(reg, specs, 0)
    {
      for i := 0 to |specs|
        invariant ProposalFault(reg, specs, 0) == ProposalFault(reg, specs, i)
      {
        fault := ValidateSpec(reg, specs[i], |specs|);
        if fault.Some? { return; }
      }
      return None;
    }

    method ValidateSpec(reg: Registry, spec: StepSpec, n: nat) returns (fault: Option<Reason>)
      ensures fault == SpecFault(reg, spec, n)
    {
      if spec.capability == "" || spec.capability !in reg.capabilities { return Some(MalformedProposal); }
      var deps, seen: set<int> := spec.dependsOn, {};
      for k := 0 to |deps|
        invariant IndicesOk(deps, n, k)
        invariant forall x :: x in seen <==> exists j :: 0 <= j < k && deps[j] == x
      {
        if deps[k] < 0 || deps[k] >= n || deps[k] in seen { return Some(MalformedProposal); }
        seen := seen + {deps[k]};
      }
      var reqs := spec.requirements;
      for k := 0 to |reqs|
        invariant RequirementFault(reg, spec.capability, reqs, 0) == RequirementFault(reg, spec.capability, reqs, k)
      {
        if reqs[k].methodName == "" { return Some(MalformedProposal); }
        if reqs[k].methodName !in reg.methodNames { return Some(UnknownMethod); }
        if reqs[k].appliesTo != spec.capability { return Some(CapabilityMismatch); }
      }
      return None;
    }

    method DependencySet(base: nat, deps: seq<int>) returns (on: set<Id>)
      requires forall k :: 0 <= k < |deps| ==> deps[k] >= 0
      ensures on == DependencyIds(base, deps)
    {
      on := {};
      for k := 0 to |deps|
        invariant forall x :: x in on <==> exists j :: 0 <= j < k && deps[j] >= 0 && x == StepId(base, deps[j])
      {
        on := on + {StepId(base, deps[k])};
      }
    }

    method BuildGraph(base: nat, specs: seq<StepSpec>) returns (graph: Graph)
      requires ProposalIndicesOk(specs)
      ensures graph == ProposalGraph(base, specs)
    {
      hide DependencyIds;
      graph := map[];
      for i := 0 to |specs|
        invariant graph.Keys == StepIds(base, i)
        invariant forall j: nat :: j < i ==> StepId(base, j) in graph && graph[StepId(base, j)] == DependencyIds(base, specs[j].dependsOn)
      {
        var on := DependencySet(base, specs[i].dependsOn);
        graph := graph[StepId(base, i) := on];
      }
    }

    /** create_plan_with_steps. An early return would commit what was already inserted (v5/store.py:265-266); the three
        composed calls never take one here. */
    method CreatePlanWithSteps(reg: Registry, task: Id, specs: seq<StepSpec>, expected: nat) returns (r: Result)
      modifies this`db
      ensures Tx(db, r) == CreatePlanWithStepsTx(old(db), reg, task, specs, expected)
    {
      hide ProposalFault, ProposalGraph, Acyclic, AcceptSteps, AcceptRequirements, AcceptRequirement, NewStep;
      if task !in db.tasks { return Rejected(NotFound); }
      if db.tasks[task].revision != expected { return Rejected(StaleRevision); }
      if TaskTerminal(db.tasks[task].status) { return Rejected(AlreadyTerminal); }
      if specs == [] { return Rejected(MalformedProposal); }
      var fault := ValidateSpecs(reg, specs);
      if fault.Some? { return Rejected(fault.value); }
      FaultFreeIndices(reg, specs);
      var plan, base := Id(PlanK, db.next), db.next + 1;
      var graph := BuildGraph(base, specs);
      var cyclic := HasCycle(graph);
      if cyclic { return Rejected(DependencyCycle); }
      db := db.(next := db.next + 1 + |specs|, plans := db.plans[plan := Plan(0, task, PDraft, None, graph)]);
      ghost var withPlan := db;
      assert withPlan == WithPlan(old(db), task, specs);
      AcceptOneStep(withPlan, task, plan, base, graph, specs, 0);
      for i := 0 to |specs|
        invariant db == AcceptSteps(withPlan, task, plan, base, graph, specs, i)
        invariant task in db.tasks
      {
        AcceptStep(task, plan, base, graph, specs, i, withPlan);
      }
      return Ok(Some(plan), 0);
    }

    /** One step of the proposal with its requirements. */
    method AcceptStep(task: Id, plan: Id, base: nat, graph: Graph, specs: seq<StepSpec>, i: nat, ghost withPlan: Db)
      requires i < |specs| && task in db.tasks && db == AcceptSteps(withPlan, task, plan, base, graph, specs, i)
      modifies this`db
      ensures db == AcceptSteps(withPlan, task, plan, base, graph, specs, i + 1) && task in db.tasks
    {
      hide AcceptRequirement, NewStep;
      var id, reqs := StepId(base, i), specs[i].requirements;
      db := db.(steps := db.steps[id := NewStep(plan, graph, id, specs[i])]);
      ghost var withStep := db;
      for j := 0 to |reqs|
        invariant db == AcceptRequirements(withStep, task, id, reqs, j)
        invariant task in db.tasks && id in db.steps
      {
        BindRequirement(task, id, reqs[j].methodName);
      }
    }

    /** Claim, verification and binding of one requirement: none of the three calls can reject. */
    method BindRequirement(task: Id, step: Id, methodName: string)
      requires task in db.tasks && step in db.steps
      modifies this`db
      ensures db == AcceptRequirement(old(db), task, step, methodName)
      ensures task in db.tasks && step in db.steps
    {
      var claim := CreateClaimLocked([], Unverified);
      assert claim.Ok?;
      ghost var withClaim := db;
      var ver := CreateVerificationLocked(claim.made.value, methodName, "deterministic", Some(step));
      assert ver.Ok? by {
        assert ClaimKey(claim.made.value, 1) in withClaim.claims && ClaimExists(withClaim, claim.made.value);
      }
      var bound := BindLocked(task, ver.made.value);
      assert bound.Ok?;
    }

    // ---------------------------------------------------------------- active plan

    method ActivatePlan(task: Id, plan: Id, expected: nat) returns (r: Result)
      modifies this`db, this`armed
      ensures Ends(old(db), db, r, ActivatePlanTx(old(db), task, plan, expected),
                   ActivatePlanTx(old(db), task, plan, expected).res.Ok? && ActivatePlanCommit in old(armed))
      ensures !r.Crashed? ==> armed == old(armed)
    {
      if task !in db.tasks { return Rejected(NotFound); }
      var t := db.tasks[task];
      if t.revision != expected { return Rejected(StaleRevision); }
      if t.status !in {TActive, TBlocked} { return Rejected(InvalidTransition); }
      if t.activePlan.Some? {
        var cur := t.activePlan.value;
        if cur !in db.plans || !Displaceable(db.plans[cur].status) { return Rejected(PlanExclusivity); }
      }
      if plan !in db.plans { return Rejected(NotFound); }
      if db.plans[plan].taskId != task { return Rejected(PlanMismatch); }
      if db.plans[plan].status != PDraft { return Rejected(PlanNotDraft); }
      var crashed := Crashes(ActivatePlanCommit);
      if crashed { return Crashed; }
      db := db.(tasks := db.tasks[task := t.(activePlan := Some(plan), revision := t.revision + 1)]);
      return Ok(None, 0);
    }

    /** Two writes, one transaction: a crash between them leaves neither. */
    method SupersedePlan(task: Id, oldPlan: Id, newPlan: Id, expected: nat) returns (r: Result)
      modifies this`db, this`armed
      ensures Ends(old(db), db, r, SupersedePlanTx(old(db), task, oldPlan, newPlan, expected),
                   SupersedePlanTx(old(db), task, oldPlan, newPlan, expected).res.Ok?
                   && (SupersedePlanCommit in old(armed) || SupersedeBetweenWrites in old(armed)))
      ensures !r.Crashed? ==> armed == old(armed)
    {
      var saved := db;
      if task !in db.tasks { return Rejected(NotFound); }
      var t := db.tasks[task];
      if t.revision != expected { return Rejected(StaleRevision); }
      if t.status !in {TActive, TBlocked} { return Rejected(InvalidTransition); }
      if t.activePlan != Some(oldPlan) { return Rejected(PlanExclusivity); }
      if oldPlan !in db.plans || db.plans[oldPlan].taskId != task { return Rejected(PlanMismatch); }
      if newPlan !in db.plans || db.plans[newPlan].taskId != task { return Rejected(PlanMismatch); }
      if db.plans[newPlan].status != PDraft { return Rejected(PlanNotDraft); }
      var crashed := Crashes(SupersedePlanCommit);
      if crashed { return Crashed; }
      var p := db.plans[oldPlan];
      db := db.(plans := db.plans[oldPlan := p.(status := PSuperseded, supersededBy := Some(newPlan), revision := p.revision + 1)]);
      crashed := Crashes(SupersedeBetweenWrites);
      if crashed {
        db := saved;
        return Crashed;
      }
      db := db.(tasks := db.tasks[task := t.(activePlan := Some(newPlan), revision := t.revision + 1)]);
      return Ok(None, 0);
    }

    // ------------------------------------------------------------------ obligations

    method CreateObligation(origin: Id, owner: Owner) returns (r: Result)
      modifies this`db
      ensures Tx(db, r) == Obligations.Apply(old(db), Obligations.CreateObligation(origin, owner))
    {
      if !ValidOwner(db, owner) { return Rejected(OwnerInvalid); }
      var id := Id(ObligationK, db.next);
      db := db.(next := db.next + 1, obligations := db.obligations[id := NewObligation(origin, owner)]);
      return Ok(Some(id), 0);
    }

    /** Update the row, append the event. */
    method RecordEvent(id: Id, e: Event)
      requires id in db.obligations
      modifies this`db
      ensures db == Record(old(db), id, e)
    {
      var o := db.obligations[id];
      match e.kind {
        case EvTransferred => if e.to.Some? { o := o.(owner := e.to.value); }
        case EvResolved => o := o.(disposition := Resolved);
        case EvAbandoned => o := o.(disposition := Abandoned);
      }
      o := o.(revision := o.revision + 1);
      o := o.(history := o.history + [e]);
      assert o == AfterEvent(old(db).obligations[id], e);
      db := db.(obligations := db.obligations[id := o]);
    }

    method TransferLockedRow(id: Id, newOwner: Owner, expectedOwner: Owner) returns (r: Result)
      modifies this`db
      ensures Tx(db, r) == TransferLocked(old(db), id, newOwner, expectedOwner)
    {
      if id !in db.obligations { return Rejected(NotFound); }
      var o := db.obligations[id];
      if o.disposition != Open { return Rejected(NotOpen); }
      if o.owner == newOwner { return Noop; }
      if o.owner != expectedOwner { return Rejected(WrongOwner); }
      if !ValidOwner(db, newOwner) { return Rejected(OwnerInvalid); }
      RecordEvent(id, Event(EvTransferred, expectedOwner, Some(newOwner)));
      return Ok(None, 0);
    }

    method AbandonObligation(id: Id, human: bool, expected: nat) returns (r: Result)
      modifies this`db
      ensures Tx(db, r) == AbandonLocked(old(db), id, human, expected)
    {
      if id !in db.obligations { return Rejected(NotFound); }
      var o := db.obligations[id];
      if !human { return Rejected(NeedsHuman); }
      if o.revision != expected { return Rejected(StaleRevision); }
      if o.disposition != Open { return Rejected(NotOpen); }
      RecordEvent(id, Event(EvAbandoned, o.owner, None));
      return Ok(None, 0);
    }

    /** _verification_concerns_obligation_locked: walk the newest claim version's citations. */
    method ClaimConcerns(claim: Id, action: Id) returns (concerns: bool)
      ensures concerns <==> Concerns(db, claim, action)
    {
      var newest := NewestVersion(claim);
      if newest.None? { return false; }
      var cited := db.claims[ClaimKey(claim, newest.value)].basedOn;
      for i := 0 to |cited|
        invariant forall j :: 0 <= j < i ==> !EvidenceOf(db.evidence, db.observations, cited[j], action)
      {
        if EvidenceOf(db.evidence, db.observations, cited[i], action) {
          assert cited[i] in cited;
          return true;
        }
      }
      return false;
    }

    method Resolve(id: Id, verification: Id, expected: nat) returns (r: Result)
      modifies this`db
      ensures Tx(db, r) == ResolveObligation(old(db), id, verification, expected)
    {
      hide Concerns;
      if id !in db.obligations { return Rejected(NotFound); }
      var o := db.obligations[id];
      if o.revision != expected { return Rejected(StaleRevision); }
      if o.disposition != Open { return Rejected(NotOpen); }
      if verification !in db.verifications || db.verifications[verification].result != VPass { return Rejected(NotOpen); }
      var concerns := ClaimConcerns(db.verifications[verification].verifies, o.origin);
      if !concerns { return Rejected(ResolutionProvenance); }
      RecordEvent(id, Event(EvResolved, o.owner, None));
      return Ok(None, 0);
    }

    /** transfer_subtree_obligations_to_uor_locked: the loop ignores what a transfer answers and counts those that
        moved; inside the scan every one moves. Only callers that hand it the store meet the crash point. */
    method TransferSubtreeToUor(obj: Id, withStore: bool) returns (moved: nat, crashed: bool)
      modifies this`db, this`armed
      ensures crashed <==> withStore && ObligationTransferLoop in old(armed) && Subtree(old(db), obj) != {}
      ensures !crashed ==> db == MoveSubtree(old(db), obj) && moved == |Subtree(old(db), obj)|
      ensures armed == old(armed) - (if crashed then {ObligationTransferLoop} else {})
    {
      hide Subtree, MovedToUor;
      ghost var d := db;
      var todo := Subtree(db, obj);
      ghost var done: set<Id> := {};
      moved, crashed := 0, false;
      NoneMoved(d);
      while todo != {}
        invariant done + todo == Subtree(d, obj) && done !! todo
        invariant db == MovedToUor(d, done) && moved == |done| && !crashed && armed == old(armed)
        invariant done == {} || !(withStore && ObligationTransferLoop in old(armed))
        decreases |todo|
      {
        var o :| o in todo;
        InScan(d, obj, o);
        StillThere(d, done, o);
        MoveOneMore(d, done, o);
        var r := TransferLockedRow(o, Uor, db.obligations[o].owner);
        if r.Ok? {
          moved := moved + 1;
          if withStore {
            crashed := Crashes(ObligationTransferLoop);
            if crashed { return; }
          }
        }
        todo, done := todo - {o}, done + {o};
      }
      assert done == Subtree(d, obj);
    }

    // ----------------------------------------------------------------- terminal commits

    /** Every required verification row exists and is PASS. */
    method RequiredPass(obj: Id) returns (ok: bool)
      ensures ok == AllRequiredPass(db, obj)
    {
      var todo := db.required;
      while todo != {}
        invariant todo <= db.required
        invariant forall b :: b in db.required && b !in todo && b.0 == obj ==>
                    b.1 in db.verifications && db.verifications[b.1].result == VPass
        decreases |todo|
      {
        var b :| b in todo;
        if b.0 == obj && (b.1 !in db.verifications || db.verifications[b.1].result != VPass) { return false; }
        todo := todo - {b};
      }
      return true;
    }

    method CompleteObject(obj: Id, expected: nat, criterion: bool) returns (r: Result)
      modifies this`db, this`armed
      ensures Ends(old(db), db, r, CompleteTx(old(db), obj, expected, criterion),
                   CompleteTx(old(db), obj, expected, criterion).res.Ok?
                   && (CompleteObjectCommit in old(armed) || CompleteObjectAfterTransfer in old(armed)
                       || (ObligationTransferLoop in old(armed)
                           && CompleteTx(old(db), obj, expected, criterion).res.moved > 0)))
      ensures !r.Crashed? ==> armed == old(armed)
    {
      hide Subtree, MovedToUor, AllRequiredPass, EvaluateCompletion, TaskChildren, GoalChildren, StepsDone, TasksDone;
      var saved := db;
      match Load(db, obj) {
        case NoObject => return Rejected(NotFound);
        case AGoal(g) =>
          if g.revision != expected { return Rejected(StaleRevision); }
          if g.integrity != Sound { return Rejected(FrozenObject); }
          if GoalTerminal(g.status) { return Rejected(InvalidTransition); }
          var kids := GoalChildren(db, obj);
          if !EvaluateCompletion(g.policy, |kids|, |TasksDone(db, kids)|, criterion) { return Rejected(PolicyUnsatisfied); }
        case ATask(t) =>
          if t.revision != expected { return Rejected(StaleRevision); }
          if t.integrity != Sound { return Rejected(FrozenObject); }
          if TaskTerminal(t.status) { return Rejected(InvalidTransition); }
          var kids := TaskChildren(db, t);
          if !EvaluateCompletion(t.policy, |kids|, |StepsDone(db, kids)|, criterion) { return Rejected(PolicyUnsatisfied); }
        case APlan(p) => if p.revision != expected { return Rejected(StaleRevision); } else { return Raised; }
        case AStep(s) => if s.revision != expected { return Rejected(StaleRevision); } else { return Raised; }
        case AnAction(a) => if a.revision != expected { return Rejected(StaleRevision); } else { return Raised; }
      }
      var pass := RequiredPass(obj);
      if !pass { return Rejected(VerificationNotPass); }
      var crashed := Crashes(CompleteObjectCommit);
      if crashed { return Crashed; }
      if obj in db.goals {
        var g := db.goals[obj];
        db := db.(goals := db.goals[obj := g.(status := GCompleted, revision := g.revision + 1)]);
      } else {
        var t := db.tasks[obj];
        db := db.(tasks := db.tasks[obj := t.(status := TCompleted, revision := t.revision + 1)]);
        t := db.tasks[obj];
        if t.activePlan.Some? { db := db.(tasks := db.tasks[obj := t.(activePlan := None)]); }
        ghost var was := saved.tasks[obj];
        assert db.tasks == saved.tasks[obj := was.(status := TCompleted, activePlan := None, revision := was.revision + 1)];
      }
      ghost var written := db;
      assert CompleteTx(saved, obj, expected, criterion) == TerminalCommit(written, obj);
      var moved, died := TransferSubtreeToUor(obj, true);
      if !died { died := Crashes(CompleteObjectAfterTransfer); }
      if died {
        db := saved;
        return Crashed;
      }
      return Ok(None, moved);
    }

    /** _terminal_transition. */
    method TerminalTransition(obj: Id, target: WorkStatus, expected: nat) returns (r: Result)
      modifies this`db, this`armed
      ensures Ends(old(db), db, r, TerminateTx(old(db), obj, target, expected),
                   TerminateTx(old(db), obj, target, expected).res.Ok? && ObligationTransferLoop in old(armed)
                   && TerminateTx(old(db), obj, target, expected).res.moved > 0)
      ensures !r.Crashed? ==> armed == old(armed)
    {
      hide Subtree, MovedToUor, GoalNext, TaskNext;
      var saved := db;
      match Load(db, obj) {
        case NoObject => return Rejected(NotFound);
        case AGoal(g) =>
          if g.revision != expected { return Rejected(StaleRevision); }
          if g.integrity != Sound { return Rejected(FrozenObject); }
          if !target.OfGoal? || target.goal !in GoalNext(g.status) { return Rejected(InvalidTransition); }
          db := db.(goals := db.goals[obj := g.(status := target.goal, revision := g.revision + 1)]);
        case ATask(t) =>
          if t.revision != expected { return Rejected(StaleRevision); }
          if t.integrity != Sound { return Rejected(FrozenObject); }
          if !target.OfTask? || target.task !in TaskNext(t.status) { return Rejected(InvalidTransition); }
          db := db.(tasks := db.tasks[obj := t.(status := target.task, revision := t.revision + 1)]);
          t := db.tasks[obj];
          db := db.(tasks := db.tasks[obj := t.(activePlan := None)]);
          assert db.tasks == saved.tasks[obj := t.(activePlan := None)];
        case APlan(p) => if p.revision != expected { return Rejected(StaleRevision); } else { return Raised; }
        case AStep(s) => if s.revision != expected { return Rejected(StaleRevision); } else { return Raised; }
        case AnAction(a) => if a.revision != expected { return Rejected(StaleRevision); } else { return Raised; }
      }
      ghost var written := db;
      assert TerminateTx(saved, obj, target, expected) == TerminalCommit(written, obj);
      var moved, died := TransferSubtreeToUor(obj, true);
      if died {
        db := saved;
        return Crashed;
      }
      return Ok(None, moved);
    }

    // -------------------------------------------------------------------- other work

    method TransitionObject(obj: Id, target: WorkStatus, expected: nat) returns (r: Result)
      modifies this`db
      ensures Tx(db, r) == TransitionTx(old(db), obj, target, expected)
    {
      hide GoalNext, TaskNext, PlanNext, StepNext;
      match Load(db, obj) {
        case NoObject => return Rejected(NotFound);
        case AGoal(g) =>
          if g.revision != expected { return Rejected(StaleRevision); }
          if g.integrity != Sound { return Rejected(FrozenObject); }
          if !target.OfGoal? || target.goal !in GoalNext(g.status) { return Rejected(InvalidTransition); }
          db := db.(goals := db.goals[obj := g.(status := target.goal, revision := g.revision + 1)]);
        case ATask(t) =>
          if t.revision != expected { return Rejected(StaleRevision); }
          if t.integrity != Sound { return Rejected(FrozenObject); }
          if !target.OfTask? || target.task !in TaskNext(t.status) { return Rejected(InvalidTransition); }
          db := db.(tasks := db.tasks[obj := t.(status := target.task, revision := t.revision + 1)]);
        case APlan(p) =>
          if p.revision != expected { return Rejected(StaleRevision); }
          if !target.OfPlan? || target.plan !in PlanNext(p.status) { return Rejected(InvalidTransition); }
          db := db.(plans := db.plans[obj := p.(status := target.plan, revision := p.revision + 1)]);
        case AStep(s) =>
          if s.revision != expected { return Rejected(StaleRevision); }
          if !target.OfStep? || target.step !in StepNext(s.status) { return Rejected(InvalidTransition); }
          db := db.(steps := db.steps[obj := s.(status := target.step, revision := s.revision + 1)]);
        case AnAction(a) =>
          if a.revision != expected { return Rejected(StaleRevision); }
          return Rejected(InvalidTransition);
      }
      return Ok(None, 0);
    }

    method CompleteStep(step: Id, expected: nat) returns (r: Result)
      modifies this`db
      ensures Tx(db, r) == CompleteStepTx(old(db), step, expected)
    {
      if step !in db.steps { return Rejected(NotFound); }
      var s := db.steps[step];
      if s.revision != expected { return Rejected(StaleRevision); }
      if SCompleted !in StepNext(s.status) { return Rejected(InvalidTransition); }
      db := db.(steps := db.steps[step := s.(status := SCompleted, revision := s.revision + 1)]);
      return Ok(None, 0);
    }

    method FreezeObject(obj: Id) returns (r: Result)
      modifies this`db
      ensures Tx(db, r) == FreezeObjectTx(old(db), obj)
    {
      match Load(db, obj) {
        case NoObject => return Rejected(NotFound);
        case AGoal(g) =>
          if g.integrity != Frozen { db := db.(goals := db.goals[obj := g.(integrity := Frozen, revision := g.revision + 1)]); }
        case ATask(t) =>
          if t.integrity != Frozen { db := db.(tasks := db.tasks[obj := t.(integrity := Frozen, revision := t.revision + 1)]); }
        case _ => return Rejected(InvalidTransition);
      }
      return Ok(None, 0);
    }

    // ---------------------------------------------------------------- confirmations

    method CreateConfirmation(action: Id, revision: nat, capability: string, arguments: string) returns (id: Id)
      modifies this`db
      ensures Made(db, id) == Safety.Apply(old(db), Safety.CreateConfirmation(action, revision, capability, arguments))
    {
      id := Id(ConfirmationK, db.next);
      db := db.(next := db.next + 1,
                confirmations := db.confirmations[id := Confirmation(action, revision, capability, arguments, None)]);
    }

    /** UPDATE ... WHERE confirmed_at IS NULL: a second confirmation changes nothing. */
    method ConfirmRow(id: Id, now: int) returns (r: Result)
      modifies this`db
      ensures Tx(db, r) == Safety.Apply(old(db), Confirm(id, now))
    {
      if id !in db.confirmations { return Rejected(NotFound); }
      var c := db.confirmations[id];
      if c.confirmedAt.None? { db := db.(confirmations := db.confirmations[id := c.(confirmedAt := Some(now))]); }
      return Ok(None, 0);
    }

    /** The gate's query: a confirmed row of the action with the latest time. */
    method LatestConfirmation(action: Id) returns (row: Option<Id>)
      ensures row.Some? ==> LatestConfirmed(db, row.value, action)
      ensures row.None? ==> forall c :: c in db.confirmations ==> !ConfirmedFor(db, c, action)
    {
      row := None;
      var todo := db.confirmations.Keys;
      while todo != {}
        invariant todo <= db.confirmations.Keys
        invariant row.None? ==> forall c :: c in db.confirmations && c !in todo ==> !ConfirmedFor(db, c, action)
        invariant row.Some? ==> ConfirmedFor(db, row.value, action)
        invariant row.Some? ==> forall c :: c in db.confirmations && c !in todo && ConfirmedFor(db, c, action) ==>
                    db.confirmations[c].confirmedAt.value <= db.confirmations[row.value].confirmedAt.value
        decreases |todo|
      {
        var c :| c in todo;
        if ConfirmedFor(db, c, action)
           && (row.None? || db.confirmations[c].confirmedAt.value > db.confirmations[row.value].confirmedAt.value)
        {
          row := Some(c);
        }
        todo := todo - {c};
      }
    }

    /** make_confirmation_gate(required)(conn, action): refuses or lets pass. */
    method ConfirmationGate(required: bool, id: Id, a: Action) returns (refused: bool, gate: Gate)
      ensures gate.ConfirmationGate? && gate.required == required
      ensures refused <==> required && !GateOpens(db, id, a, gate.row)
      ensures required && gate.row.None? ==> forall c :: c in db.confirmations ==> !ConfirmedFor(db, c, id)
      ensures required && gate.row.Some? ==> LatestConfirmed(db, gate.row.value, id)
      ensures Queried(db, id, Some(required), gate)
    {
      gate := Gate.ConfirmationGate(required, None);
      if !required { return false, gate; }
      var row := LatestConfirmation(id);
      gate := Gate.ConfirmationGate(required, row);
      if row.None? { return true, gate; }
      var c := db.confirmations[row.value];
      if c.actionRevision != a.revision { return true, gate; }
      if c.capability != a.capability || c.arguments != a.arguments { return true, gate; }
      if a.confirmationId.Some? && a.confirmationId != row {
        if !Confirmed(db, a.confirmationId.value) { return true, gate; }
        var mine := db.confirmations[a.confirmationId.value];
        if mine.actionRevision != a.revision { return true, gate; }
        if mine.capability != a.capability || mine.arguments != a.arguments { return true, gate; }
      }
      return false, gate;
    }

    // ---------------------------------------------------------------------- actions

    /** The checks of begin_executing in source order; the safety check runs last, inside the transaction. */
    method BeginChecks(id: Id, expected: nat, plan: Option<Id>, confirm: Option<bool>)
      returns (fault: Option<Reason>, gate: Gate)
      ensures fault.Some? ==> BeginTx(db, id, expected, plan, gate) == Reject(db, fault.value)
      ensures fault.None? ==> id in db.actions && BeginTx(db, id, expected, plan, gate) == Done(Advance(db, id, AExecuting))
      ensures fault.None? && confirm == Some(true) ==> Gated(gate)
      ensures fault.None? || fault == Some(ConfirmationRequired) ==> Queried(db, id, confirm, gate)
    {
      hide GateOpens, PlanMismatchReason, LatestConfirmed, Queried;
      gate := NoGate;
      if id !in db.actions { return Some(NotFound), gate; }
      var a := db.actions[id];
      if a.revision != expected { return Some(StaleRevision), gate; }
      if a.integrity == Frozen { return Some(FrozenObject), gate; }
      if ActionTerminal(a.status) { return Some(AlreadyTerminal), gate; }
      if AExecuting !in ActionNext(a.status) { return Some(InvalidTransition), gate; }
      if plan.Some? {
        var mismatch := PlanMismatchReason(db, a, plan.value);
        MismatchNeverAsks(db, a, plan.value);
        if mismatch.Some? { return mismatch, gate; }
      }
      if confirm.Some? {
        var refused;
        refused, gate := ConfirmationGate(confirm.value, id, a);
        if refused { return Some(ConfirmationRequired), gate; }
      }
      assert confirm.None? ==> Queried(db, id, confirm, gate) by { NoQuery(db, id, gate); }
      return None, gate;
    }

    /** `confirm` is the safety check: none, or the confirmation gate with its `required`; when it is required no begin
        commits without it. */
    method BeginExecuting(id: Id, expected: nat, plan: Option<Id>, confirm: Option<bool>) returns (r: Result, gate: Gate)
      modifies this`db, this`armed
      ensures Ends(old(db), db, r, BeginTx(old(db), id, expected, plan, gate),
                   BeginTx(old(db), id, expected, plan, gate).res.Ok? && BeforeExecutingPersist in old(armed))
      ensures r.Ok? && confirm == Some(true) ==> Gated(gate)
      ensures (r.Rejected? && r.reason != ConfirmationRequired) || Queried(old(db), id, confirm, gate)
      ensures armed <= old(armed)
      ensures !r.Crashed? ==> armed == old(armed)
    {
      hide BeginTx, Queried;
      var fault;
      fault, gate := BeginChecks(id, expected, plan, confirm);
      if fault.Some? { return Rejected(fault.value), gate; }
      var crashed := Crashes(BeforeExecutingPersist);
      if crashed { return Crashed, gate; }
      var a := db.actions[id];
      db := db.(actions := db.actions[id := a.(status := AExecuting, revision := a.revision + 1)]);
      return Ok(None, 0), gate;
    }

    /** Observation and OBSERVED in one transaction. */
    method ObserveAction(id: Id, expected: nat, raw: string, plan: Option<Id>) returns (r: Result)
      modifies this`db, this`armed
      ensures Ends(old(db), db, r, MarkObservedTx(old(db), id, expected, raw, plan),
                   MarkObservedTx(old(db), id, expected, raw, plan).res.Ok?
                   && (BeforeObservationPersist in old(armed) || AfterObservationInsert in old(armed)))
      ensures armed <= old(armed)
      ensures !r.Crashed? ==> armed == old(armed)
    {
      hide PlanMismatchReason;
      var saved := db;
      if id !in db.actions { return Rejected(NotFound); }
      var a := db.actions[id];
      if a.revision != expected { return Rejected(StaleRevision); }
      if a.integrity == Frozen { return Rejected(FrozenObject); }
      if AObserved !in ActionNext(a.status) { return Rejected(InvalidTransition); }
      if plan.Some? {
        var mismatch := PlanMismatchReason(db, a, plan.value);
        MismatchNeverAsks(db, a, plan.value);
        if mismatch.Some? { return Rejected(mismatch.value); }
      }
      var obs := Id(ObservationK, db.next);
      var crashed := Crashes(BeforeObservationPersist);
      if crashed { return Crashed; }
      db := db.(next := db.next + 1, observations := db.observations[obs := Observation(id, raw)]);
      crashed := Crashes(AfterObservationInsert);
      if crashed {
        db := saved;
        return Crashed;
      }
      db := db.(actions := db.actions[id := a.(status := AObserved, revision := a.revision + 1)]);
      return Ok(Some(obs), 0);
    }

    method CreateAction(c: ActionCall) returns (r: Result)
      requires c.CreateAction?
      modifies this`db
      ensures Tx(db, r) == CreateActionTx(old(db), c)
    {
      if c.step !in db.steps { return Rejected(NotFound); }
      var s := db.steps[c.step];
      if s.status in {SCancelled, SSkipped, SCompleted} { return Rejected(InvalidTransition); }
      if c.expectedStep.Some? && s.revision != c.expectedStep.value { return Rejected(StaleRevision); }
      if s.capability != "" && c.capability != s.capability { return Rejected(InvalidTransition); }
      if !c.argumentsOk { return Rejected(ArgumentsInvalid); }
      var id := Id(ActionK, db.next);
      var row := Action(0, c.step, APending, c.capability, c.arguments, c.idempotency, c.confirmation, None, Sound);
      db := db.(next := db.next + 1, actions := db.actions[id := row]);
      return Ok(Some(id), 0);
    }

    method CancelAction(id: Id, expected: nat) returns (r: Result)
      modifies this`db
      ensures Tx(db, r) == CancelActionTx(old(db), id, expected)
    {
      if id !in db.actions { return Rejected(NotFound); }
      var a := db.actions[id];
      if a.revision != expected { return Rejected(StaleRevision); }
      if ACancelled !in ActionNext(a.status) { return Rejected(InvalidTransition); }
      db := db.(actions := db.actions[id := a.(status := ACancelled, revision := a.revision + 1)]);
      return Ok(None, 0);
    }

    /** UNKNOWN_OUTCOME and its obligation in one transaction. */
    method UnknownOutcomeOf(id: Id, expected: nat) returns (r: Result)
      modifies this`db
      ensures Tx(db, r) == MarkUnknownTx(old(db), id, expected)
    {
      if id !in db.actions { return Rejected(NotFound); }
      var a := db.actions[id];
      if a.revision != expected { return Rejected(StaleRevision); }
      if a.integrity == Frozen { return Rejected(FrozenObject); }
      if AUnknown !in ActionNext(a.status) { return Rejected(InvalidTransition); }
      var owner := OwningTask(db, a);
      if owner.None? { return Rejected(NotFound); }
      db := db.(actions := db.actions[id := a.(status := AUnknown, revision := a.revision + 1)]);
      var o := Id(ObligationK, db.next);
      db := db.(next := db.next + 1, obligations := db.obligations[o := NewObligation(id, Owned(owner.value))]);
      return Ok(Some(o), 0);
    }

    method FailAction(id: Id, expected: nat, definiteNoEffect: bool) returns (r: Result)
      modifies this`db
      ensures Tx(db, r) == MarkFailedTx(old(db), id, expected, definiteNoEffect)
    {
      if id !in db.actions { return Rejected(NotFound); }
      var a := db.actions[id];
      if a.revision != expected { return Rejected(StaleRevision); }
      if !definiteNoEffect { return Rejected(NotDefinite); }
      if AFailed !in ActionNext(a.status) { return Rejected(InvalidTransition); }
      db := db.(actions := db.actions[id := a.(status := AFailed, revision := a.revision + 1)]);
      return Ok(None, 0);
    }

    /** A new attempt and the charge for it in one transaction. */
    method RetryAction(id: Id, expectedTask: nat) returns (r: Result)
      modifies this`db
      ensures Tx(db, r) == RetryTx(old(db), id, expectedTask)
    {
      if id !in db.actions { return Rejected(NotFound); }
      var a := db.actions[id];
      if a.status !in {AUnknown, AFailed} { return Rejected(NotRetryable); }
      var owner := OwningTask(db, a);
      if owner.None? || owner.value !in db.tasks { return Rejected(NotFound); }
      var t := db.tasks[owner.value];
      if t.revision != expectedTask { return Rejected(StaleRevision); }
      if t.attemptsUsed >= t.maxAttempts { return Rejected(RetryBudgetExhausted); }
      var attempt := Id(ActionK, db.next);
      db := db.(next := db.next + 1, actions := db.actions[attempt := RetryOf(id, a)]);
      db := db.(tasks := db.tasks[owner.value := t.(attemptsUsed := t.attemptsUsed + 1, revision := t.revision + 1)]);
      return Ok(Some(attempt), 0);
    }

    method FreezeActionRow(id: Id) returns (r: Result)
      modifies this`db
      ensures Tx(db, r) == FreezeActionTx(old(db), id)
    {
      if id !in db.actions { return Rejected(NotFound); }
      var a := db.actions[id];
      db := db.(actions := db.actions[id := a.(integrity := Frozen, revision := a.revision + 1)]);
      return Ok(None, 0);
    }

    // ---------------------------------------------------------------- verification

    /** run_verification: RUNNING commits first, the verdict in a second transaction that evaluates the gate again. */
    method RunVerification(id: Id, action: Option<Id>, verdict: Verdict) returns (r: Result)
      modifies this`db, this`armed
      ensures var first := StartVerificationTx(old(db), id, action);
              if !first.res.Ok? then Tx(db, r) == first
              else if VerificationMidrun in old(armed) then r == Crashed && db == first.db
              else Tx(db, r) == FinishVerificationTx(first.db, id, action, verdict)
      ensures armed <= old(armed)
      ensures !r.Crashed? ==> armed == old(armed)
      ensures db == old(db).(verifications := db.verifications)
    {
      r := StartRun(id, action);
      if !r.Ok? { return; }
      var crashed := Crashes(VerificationMidrun);
      if crashed { return Crashed; }
      r := FinishRun(id, action, verdict);
    }

    method StartRun(id: Id, action: Option<Id>) returns (r: Result)
      modifies this`db
      ensures Tx(db, r) == StartVerificationTx(old(db), id, action)
    {
      if id !in db.verifications { return Rejected(NotFound); }
      var v := db.verifications[id];
      if v.result !in {VPending, VRunning} { return Rejected(AlreadyFinal); }
      if action.Some? {
        if action.value !in db.actions { return Rejected(NotFound); }
        var a := db.actions[action.value];
        if a.status != AObserved { return Rejected(ActionNotExecuted); }
        if v.stepId.Some? && a.stepId != v.stepId.value { return Rejected(ActionNotBound); }
      }
      db := db.(verifications := db.verifications[id := v.(result := VRunning)]);
      return Ok(None, 0);
    }

    method FinishRun(id: Id, action: Option<Id>, verdict: Verdict) returns (r: Result)
      modifies this`db
      ensures Tx(db, r) == FinishVerificationTx(old(db), id, action, verdict)
    {
      hide ClaimExists;
      if id !in db.verifications { return Raised; }
      var v := db.verifications[id];
      if action.Some? {
        if action.value !in db.actions || db.actions[action.value].status != AObserved { return Rejected(ActionNotExecuted); }
        if v.stepId.Some? && db.actions[action.value].stepId != v.stepId.value { return Rejected(ActionNotBound); }
      }
      if !ClaimExists(db, v.verifies) { return Raised; }
      var result := VInconclusive;
      match verdict {
        case Satisfied => result := VPass;
        case Violated => result := VFail;
        case _ =>
      }
      db := db.(verifications := db.verifications[id := v.(result := result, ungated := v.ungated || action.None?)]);
      assert db == SetResult(old(db), id, result, action.None?);
      return Ok(None, 0);
    }

    method RecordRuntimeEvidence(observation: Id) returns (r: Result)
      modifies this`db
      ensures Tx(db, r) == EvidencePipeline.Apply(old(db), RecordRuntime(observation))
    {
      if observation !in db.observations { return Rejected(NotFound); }
      var id := Id(EvidenceK, db.next);
      db := db.(next := db.next + 1, evidence := db.evidence[id := Evidence(ConfirmedRuntime, Some(observation))]);
      return Ok(Some(id), 0);
    }

    /** Status is forced to INFERENCE; every reference must be evidence or a claim. */
    method CreateInferenceEvidence(basedOn: seq<Id>) returns (r: Result)
      modifies this`db
      ensures Tx(db, r) == EvidencePipeline.Apply(old(db), CreateInference(basedOn))
    {
      for i := 0 to |basedOn|
        invariant forall j :: 0 <= j < i ==> basedOn[j] in db.evidence || ClaimExists(db, basedOn[j])
        invariant db == old(db)
      {
        if basedOn[i] !in db.evidence && !ClaimExists(db, basedOn[i]) {
          assert basedOn[i] in basedOn;
          return Rejected(NotFound);
        }
      }
      var id := Id(EvidenceK, db.next);
      db := db.(next := db.next + 1, evidence := db.evidence[id := Evidence(Inference, None)]);
      return Ok(Some(id), 0);
    }

    method RecordUserEvidence() returns (r: Result)
      modifies this`db
      ensures Tx(db, r) == EvidencePipeline.Apply(old(db), RecordUser)
    {
      var id := Id(EvidenceK, db.next);
      db := db.(next := db.next + 1, evidence := db.evidence[id := Evidence(UnknownEvidence, None)]);
      return Ok(Some(id), 0);
    }

    // ----------------------------------------------------------------------- repair

    /** Repairs hand obligations over without the store, so without the loop's crash point. */
    method SettleRow(id: Id, terminal: bool) returns (r: Result)
      modifies this`db, this`armed
      ensures Tx(db, r) == Settle(old(db), id, terminal) && armed == old(armed)
    {
      var moved, died := 0, false;
      if terminal { moved, died := TransferSubtreeToUor(id, false); }
      return Ok(None, moved);
    }

    method AbandonUnrepairableObject(id: Id, expected: nat) returns (r: Result)
      modifies this`db, this`armed
      ensures Tx(db, r) == AbandonUnrepairableTx(old(db), id, expected)
      ensures !r.Crashed? ==> armed == old(armed)
    {
      hide Settle;
      match Load(db, id) {
        case AGoal(g) =>
          if g.revision != expected { return Rejected(StaleRepair); }
          if g.integrity == AbandonedUnrepairable { return Rejected(AlreadyAbandoned); }
          db := db.(goals := db.goals[id := g.(integrity := AbandonedUnrepairable, revision := g.revision + 1)]);
        case ATask(k) =>
          if k.revision != expected { return Rejected(StaleRepair); }
          if k.integrity == AbandonedUnrepairable { return Rejected(AlreadyAbandoned); }
          db := db.(tasks := db.tasks[id := k.(integrity := AbandonedUnrepairable, revision := k.revision + 1)]);
        case AnAction(a) =>
          if a.revision != expected { return Rejected(StaleRepair); }
          if a.integrity == AbandonedUnrepairable { return Rejected(AlreadyAbandoned); }
          db := db.(actions := db.actions[id := a.(integrity := AbandonedUnrepairable, revision := a.revision + 1)]);
        case NoObject =>
          if id in db.verifications || id in db.obligations { return Rejected(InvalidTransition); }
          return Rejected(NotFound);
        case _ => return Rejected(InvalidTransition);
      }
      r := SettleRow(id, true);
    }

    /** The proposed plan row against its aggregate: no self-dependency, no cycle, a successor when SUPERSEDED. */
    method PlanAggregateHolds(p: Plan, t: Target) returns (ok: bool)
      requires t.PlanFix?
      ensures ok <==> PlanAggregateOk(p, t)
    {
      if t.pStatus == Some(PSuperseded) && !(t.pSupersededBy.Some? && t.pSupersededBy.value.Some?) && p.supersededBy.None? {
        return false;
      }
      if t.pGraph.Some? {
        if t.pGraph.value.Malformed? { return false; }
        var graph := t.pGraph.value.graph;
        if exists v :: v in graph && v in graph[v] { return false; }
        var cyclic := HasCycle(graph);
        if cyclic { return false; }
      }
      return true;
    }

    /** All checks of repair_object up to the crash point. */
    method RepairChecks(id: Id, expected: nat, t: Target, justified: bool) returns (fault: Option<Reason>)
      ensures fault.Some? ==> RepairTx(db, id, expected, t, justified) == Reject(db, fault.value)
      ensures fault.None? ==> RepairTx(db, id, expected, t, justified).res.Ok?
    {
      hide Settle, PlanAggregateOk;
      if !justified { return Some(NeedsReason); }
      match Load(db, id) {
        case AGoal(g) =>
          if g.revision != expected { return Some(StaleRepair); }
          if !t.GoalFix? { return Some(FieldForbidden); }
        case ATask(k) =>
          if k.revision != expected { return Some(StaleRepair); }
          if !t.TaskFix? { return Some(FieldForbidden); }
          if !TaskAggregateOk(db, id, k, t) { return Some(AggregateInvalid); }
        case APlan(p) =>
          if p.revision != expected { return Some(StaleRepair); }
          if !t.PlanFix? { return Some(FieldForbidden); }
          var ok := PlanAggregateHolds(p, t);
          if !ok { return Some(AggregateInvalid); }
        case AStep(s) =>
          if s.revision != expected { return Some(StaleRepair); }
          if !t.StepFix? { return Some(FieldForbidden); }
        case AnAction(a) =>
          if a.revision != expected { return Some(StaleRepair); }
          if !t.ActionFix? { return Some(FieldForbidden); }
          if t.aStatus == Some(AObserved) && !Observed(db, id) { return Some(Fabrication); }
        case NoObject =>
          if id in db.verifications {
            if !t.VerificationFix? { return Some(FieldForbidden); }
            if !ResultHonest(db.verifications[id], t) { return Some(Fabrication); }
          } else if id in db.obligations {
            if db.obligations[id].revision != expected { return Some(StaleRepair); }
            if !t.ObligationFix? { return Some(FieldForbidden); }
            if t.oOwner.Some? && !ValidOwner(db, t.oOwner.value) { return Some(AggregateInvalid); }
          } else {
            return Some(NotFound);
          }
      }
      return None;
    }

    method RepairRow(id: Id, expected: nat, t: Target, justified: bool) returns (r: Result)
      modifies this`db, this`armed
      ensures Ends(old(db), db, r, RepairTx(old(db), id, expected, t, justified),
                   RepairTx(old(db), id, expected, t, justified).res.Ok? && RepairAfterValidation in old(armed))
      ensures !r.Crashed? ==> armed == old(armed)
    {
      hide RepairTx, Load;
      var fault := RepairChecks(id, expected, t, justified);
      if fault.Some? { return Rejected(fault.value); }
      var crashed := Crashes(RepairAfterValidation);
      if crashed { return Crashed; }
      if Load(db, id).NoObject? {
        r := WriteRecord(id, expected, t, justified);
      } else {
        r := WriteObject(id, expected, t, justified);
      }
    }

    /** The writes of a repair that passed its checks: the row, then the hand-over when it ends terminal. */
    method WriteObject(id: Id, expected: nat, t: Target, justified: bool) returns (r: Result)
      requires RepairTx(db, id, expected, t, justified).res.Ok? && !Load(db, id).NoObject?
      modifies this`db, this`armed
      ensures Tx(db, r) == RepairTx(old(db), id, expected, t, justified) && armed == old(armed)
    {
      hide Settle, TaskAggregateOk, PlanAggregateOk, Observed, FixGoal, FixTask, FixPlan, FixStep, FixAction;
      var terminal := false;
      match Load(db, id) {
        case AGoal(g) =>
          db := db.(goals := db.goals[id := FixGoal(g, t)]);
          terminal := GoalTerminal(FixGoal(g, t).status);
        case ATask(k) =>
          db := db.(tasks := db.tasks[id := FixTask(k, t)]);
          terminal := TaskTerminal(FixTask(k, t).status);
        case APlan(p) =>
          db := db.(plans := db.plans[id := FixPlan(p, t)]);
          terminal := PlanTerminal(FixPlan(p, t).status);
        case AStep(s) =>
          db := db.(steps := db.steps[id := FixStep(s, t)]);
          terminal := StepTerminal(FixStep(s, t).status);
        case AnAction(a) =>
          db := db.(actions := db.actions[id := FixAction(a, t)]);
          terminal := ActionTerminal(FixAction(a, t).status);
      }
      assert RepairTx(old(db), id, expected, t, justified) == Settle(db, id, terminal);
      r := SettleRow(id, terminal);
    }

    method WriteRecord(id: Id, expected: nat, t: Target, justified: bool) returns (r: Result)
      requires RepairTx(db, id, expected, t, justified).res.Ok? && Load(db, id).NoObject?
      modifies this`db
      ensures Tx(db, r) == RepairTx(old(db), id, expected, t, justified)
    {
      hide ResultHonest, FixObligation;
      if id in db.verifications {
        var v := db.verifications[id];
        db := db.(verifications := db.verifications[id := v.(result := Or(t.vResult, v.result))]);
      } else {
        db := db.(obligations := db.obligations[id := FixObligation(db.obligations[id], t)]);
      }
      return Ok(None, 0);
    }

    // ---------------------------------------------------------------------- recovery

    /** recover: one pass over the actions found EXECUTING, one transaction each. What it leaves is what Recovered says
        whenever the store is referentially sound. */
    method Recover() returns (recovered: seq<Id>, frozen: seq<Id>, ghost ids: seq<Id>)
      modifies this`db
      ensures Elements(ids) == Stuck(old(db)) && db == RecoverAll(old(db), ids)
      ensures Inv(old(db)) ==> Recovered(old(db), db, Stuck(old(db))) && Reports(old(db), ids, recovered, frozen)
    {
      hide Inv, Recovered, Stuck, Elements, RecoverAll, Reports;
      ghost var d := db;
      var todo := Stuck(db);
      recovered, frozen, ids := [], [], [];
      SweepStarts(d);
      while todo != {}
        invariant Swept(d, db, todo, ids) && (Inv(d) ==> Reports(d, ids, recovered, frozen))
        decreases |todo|
      {
        var a :| a in todo;
        SweepMore(d, db, todo, ids, a, recovered, frozen);
        var r := RecoverAction(a);
        if r == Some(true) { recovered := recovered + [a]; }
        if r == Some(false) { frozen := frozen + [a]; }
        todo, ids := todo - {a}, ids + [a];
      }
    }

    /** One iteration: Some(false) froze the action, Some(true) marked it, None found it frozen already. */
    method RecoverAction(a: Id) returns (r: Option<bool>)
      requires a in db.actions
      modifies this`db
      ensures db == RecoverOne(old(db), a)
      ensures r == Some(false) <==> Classify(old(db), a) == IntegrityViolation
      ensures r == Some(true) <==> Classify(old(db), a) != IntegrityViolation
                                   && MarkUnknownTx(old(db), a, old(db).actions[a].revision).res.Ok?
    {
      hide Classify, MarkUnknownTx;
      if Classify(db, a) == IntegrityViolation {
        var _ := FreezeActionRow(a);
        return Some(false);
      }
      var result := UnknownOutcomeOf(a, db.actions[a].revision);
      return if result.Ok? then Some(true) else None;
    }

    // -------------------------------------------------------------- execute_action

    /** The transaction after the external call. */
    method RecordReply(id: Id, revision: nat, plan: Option<Id>, reply: Reply) returns (r: Result)
      modifies this`db, this`armed
      ensures Ends(old(db), db, r, EndTx(old(db), Returned(id, revision, plan, reply)),
                   reply.Value? && EndTx(old(db), Returned(id, revision, plan, reply)).res.Ok?
                   && (BeforeObservationPersist in old(armed) || AfterObservationInsert in old(armed)))
      ensures armed <= old(armed)
      ensures !r.Crashed? ==> armed == old(armed)
    {
      hide MarkObservedTx, MarkFailedTx, MarkUnknownTx;
      match reply {
        case Value(raw) => r := ObserveAction(id, revision + 1, raw, plan);
        case DefiniteNoEffect => r := FailAction(id, revision + 1, true);
        case OtherFailure => r := UnknownOutcomeOf(id, revision + 1);
      }
    }

    /** execute_action: begin, call, record. The capability is called once, and only on a begin that committed. */
    method ExecuteAction(id: Id, revision: nat, plan: Option<Id>, confirm: Option<bool>, reply: Reply)
      returns (r: Result, gate: Gate)
      modifies this
      ensures Executed(old(db), old(armed), old(invoked), db, invoked, id, revision, plan, gate, reply, r)
      ensures r.Ok? && confirm == Some(true) ==> Gated(gate)
      ensures BeginTx(old(db), id, revision, plan, gate).res.Ok? || r == Rejected(ConfirmationRequired) ==>
                Queried(old(db), id, confirm, gate)
      ensures old(armed) == {} ==> armed == {}
    {
      hide BeginTx, EndTx, Queried;
      r, gate := BeginExecuting(id, revision, plan, confirm);
      if !r.Ok? { return; }
      var crashed := Crashes(AfterExecutingBeforeExternal);
      if crashed { return Crashed, gate; }
      invoked := invoked + [Invocation(id, revision)];
      r := RecordReply(id, revision, plan, reply);
    }

    // ------------------------------------------------------------------ _drive_step

    /** One step through the boundary: execute (staging a confirmation once when the gate asks for it), record
        evidence, run the step's own verifications, complete the step. Without a crash it reaches its end exactly from a
        drivable store with a capability that returns, provided the gate asks for nothing or the confirmation will open it. */
    method DriveStep(c: DriveCall) returns (r: Drive)
      modifies this
      ensures r == DroveToEnd ==> Driven(db, c)
      ensures r == DroveToEnd ==> invoked == old(invoked) + [Invocation(c.action, c.revision)]
      ensures invoked == old(invoked) || invoked == old(invoked) + [Invocation(c.action, c.revision)]
      ensures Leads(old(db), old(invoked), db, invoked)
      ensures Inv(old(db)) && old(armed) == {} && r == DroveToEnd ==>
                c.reply.Value? && Drivable(old(db), JobOf(c), SatisfiedBy(c))
      ensures Inv(old(db)) && old(armed) == {} && c.reply.Value? && Drivable(old(db), JobOf(c), SatisfiedBy(c)) ==>
                (!c.required || (c.approved && WillOpen(old(db), c.action, c.capability, c.arguments, c.now))) ==> r == DroveToEnd
    {
      hide Leads, Driven, Inv, Drivable, WillOpen, Attempted, Queried;
      ghost var d, e := db, invoked;
      ghost var gate;
      var done;
      done, gate := Attempt(c);
      if Inv(d) && old(armed) == {} && c.reply.Value? { FirstAttempt(d, db, c, gate, done); }
      ghost var tried := d;
      if done == Rejected(ConfirmationRequired) && c.required {
        if !c.approved { return Halted(ConfirmationRequired); }
        ghost var asked := db;
        var row := CreateConfirmation(c.action, c.revision, c.capability, c.arguments);
        LeadsOn(d, e, asked, invoked, OfSafety(Safety.CreateConfirmation(c.action, c.revision, c.capability, c.arguments)));
        ghost var staged := db;
        var _ := ConfirmRow(row, c.now);
        LeadsOn(d, e, staged, invoked, OfSafety(Confirm(row, c.now)));
        ghost var confirmed, before := db, invoked;
        tried := confirmed;
        done, gate := Attempt(c);
        if Inv(d) && old(armed) == {} && c.reply.Value? { SecondAttempt(d, confirmed, db, c, gate, done); }
        LeadsTransitive(d, e, confirmed, before, db, invoked);
      }
      ghost var attempted, calls := db, invoked;
      match done {
        case Crashed => return Died;
        case Rejected(reason) => return Halted(reason);
        case Raised => return Threw;
        case Ok(_, _) =>
      }
      if !c.reply.Value? { return EndedOtherwise; }
      if Inv(d) && old(armed) == {} { AttemptLeft(d, tried, db, c, gate, done); }
      r := VerifyAndComplete(c, done.made.value);
      LeadsTransitive(d, e, attempted, calls, db, invoked);
    }

    method Attempt(c: DriveCall) returns (r: Result, ghost gate: Gate)
      modifies this
      ensures r.Ok? ==> invoked == old(invoked) + [Invocation(c.action, c.revision)]
      ensures invoked == old(invoked) || invoked == old(invoked) + [Invocation(c.action, c.revision)]
      ensures r == Rejected(ConfirmationRequired) ==> invoked == old(invoked)
      ensures r != Noop
      ensures r.Ok? && c.reply.Value? ==> r.made.Some? && ObservedFor(db, c, r.made.value)
      ensures Leads(old(db), old(invoked), db, invoked)
      ensures old(armed) == {} ==> armed == {} && Attempted(old(db), db, c, gate, r)
    {
      hide BeginTx, Leads, Queried;
      r, gate := ExecuteAction(c.action, c.revision, Some(c.plan), Some(c.required), c.reply);
      ExecuteLeads(old(db), old(armed), old(invoked), db, invoked, c.action, c.revision, Some(c.plan), gate, c.reply, r);
      if old(armed) == {} { AttemptDecides(old(db), old(invoked), db, invoked, c, gate, r); }
    }

    /** Everything after the action is OBSERVED. */
    method VerifyAndComplete(c: DriveCall, obs: Id) returns (r: Drive)
      requires c.reply.Value? && ObservedFor(db, c, obs)
      modifies this`db, this`armed
      ensures r == DroveToEnd ==> Driven(db, c)
      ensures Leads(old(db), invoked, db, invoked)
      ensures old(armed) == {} && (c.step in old(db).steps ==> Apart(old(db), c.step)) ==>
                (r == DroveToEnd <==> BindingsReady(old(db), JobOf(c), SatisfiedBy(c), 0) && Enterable(old(db), c.step))
    {
      hide Leads, Driven, EvidencePipeline.Apply, BindingsReady, Enterable, Apart, RestsOn;
      RecordedEvidence(db, obs);
      var evidence := RecordRuntimeEvidence(obs);
      var ev := evidence.made.value;
      LeadsBy(old(db), invoked, OfEvidence(RecordRuntime(obs)));
      SameBindings(old(db), db, JobOf(c), SatisfiedBy(c), 0);
      ghost var recorded := db;
      var stopped := VerifyBindings(c, ev, obs);
      LeadsTransitive(old(db), invoked, recorded, invoked, db, invoked);
      if stopped.Some? { return stopped.value; }
      ghost var verified := db;
      SameStep(old(db), db, c.step);
      r := FinishStep(c, ev, obs);
      LeadsTransitive(old(db), invoked, verified, invoked, db, invoked);
    }

    /** The step's own verifications in the order of the bindings; None when all of them passed. */
    method VerifyBindings(c: DriveCall, ghost ev: Id, ghost obs: Id) returns (stopped: Option<Drive>)
      requires ObservedFor(db, c, obs) && RestsOn(db, ev, obs)
      modifies this`db, this`armed
      ensures db == old(db).(verifications := db.verifications)
      ensures stopped.None? ==> Verified(db, c, ev, obs)
      ensures stopped != Some(DroveToEnd) && Leads(old(db), invoked, db, invoked)
      ensures old(armed) == {} ==> (stopped.None? <==> BindingsReady(old(db), JobOf(c), SatisfiedBy(c), 0))
    {
      hide Leads, BindingsReady, ObservedFor, RestsOn, Passed;
      LeadsNowhere(db, invoked);
      for i := 0 to |c.bindings|
        invariant Leads(old(db), invoked, db, invoked)
        invariant db == old(db).(verifications := db.verifications)
        invariant forall j :: 0 <= j < i && c.bindings[j].0 == c.step ==> Passed(db, c.bindings[j].1)
        invariant old(armed) == {} ==> armed == {}
        invariant old(armed) == {} ==>
          (BindingsReady(db, JobOf(c), SatisfiedBy(c), i) <==> BindingsReady(old(db), JobOf(c), SatisfiedBy(c), 0))
      {
        ghost var unverified := db;
        if c.bindings[i].0 == c.step {
          ObservedStays(old(db), db, c, ev, obs);
          ActionIsObserved(db, c, obs);
          var stop := VerifyBinding(c, i);
          LeadsTransitive(old(db), invoked, unverified, invoked, db, invoked);
          if stop.Some? { return stop; }
        } else {
          BindingsSkip(db, JobOf(c), SatisfiedBy(c), i);
        }
      }
      BindingsOver(db, JobOf(c), SatisfiedBy(c), |c.bindings|);
      ObservedStays(old(db), db, c, ev, obs);
      return None;
    }

    /** The i-th bound verification; None when it passed, and then no other row has changed. */
    method VerifyBinding(c: DriveCall, i: nat) returns (stopped: Option<Drive>)
      requires i < |c.bindings| && c.bindings[i].0 == c.step
      modifies this`db, this`armed
      ensures db == old(db).(verifications := db.verifications)
      ensures stopped.None? ==>
                Passed(db, c.bindings[i].1) && forall v :: v != c.bindings[i].1 && Passed(old(db), v) ==> Passed(db, v)
      ensures stopped != Some(DroveToEnd) && Leads(old(db), invoked, db, invoked)
      ensures old(armed) == {} && c.action in old(db).actions && old(db).actions[c.action].status == AObserved ==>
                armed == {} && BindingRan(old(db), db, c, i, stopped.None?)
    {
      hide Leads, StartVerificationTx, FinishVerificationTx, Passed, BindingRan;
      LeadsNowhere(db, invoked);
      var ver := c.bindings[i].1;
      BindingStops(db, c, i);
      if ver !in db.verifications { return Some(Halted(NotFound)); }
      if db.verifications[ver].methodName !in c.methodNames { return Some(Halted(UnknownMethod)); }
      var verdict := if ver in c.verdicts then c.verdicts[ver] else Undecided;
      var ran := RunVerification(ver, Some(c.action), verdict);
      RefusedStart(old(db), ver, Some(c.action));
      VerificationLeads(old(db), invoked, db, ver, Some(c.action), verdict);
      if old(armed) == {} && c.action in old(db).actions && old(db).actions[c.action].status == AObserved {
        BindingEvaluated(old(db), db, c, i, verdict, ran);
      }
      match ran {
        case Crashed => return Some(Died);
        case Rejected(reason) => return Some(Halted(reason));
        case Raised => return Some(Threw);
        case _ =>
      }
      RanOne(old(db), ver, Some(c.action), verdict);
      if !Passed(db, ver) { return Some(Halted(VerificationNotPass)); }
      return None;
    }

    /** READY, EXECUTING, COMPLETED; a refused transition has no value and throws. */
    method FinishStep(c: DriveCall, ghost ev: Id, ghost obs: Id) returns (r: Drive)
      requires Verified(db, c, ev, obs)
      modifies this`db
      ensures r == DroveToEnd ==> Driven(db, c)
      ensures Leads(old(db), invoked, db, invoked)
      ensures (c.step in old(db).steps ==> Apart(old(db), c.step)) ==> (r == DroveToEnd <==> Enterable(old(db), c.step))
    {
      hide Verified, TransitionTx, Leads, Driven, Apart, Enterable;
      LeadsNowhere(db, invoked);
      if c.step !in db.steps {
        NotThere(db, c.step);
        return Threw;
      }
      if Apart(db, c.step) { FinishDecides(db, c.step); }
      TransitionLeads(db, invoked, db, invoked, c.step, SReady, db.steps[c.step].revision);
      var t := TransitionObject(c.step, OfStep(SReady), db.steps[c.step].revision);
      if !t.Ok? { return Threw; }
      StepMoved(old(db), c.step, SReady);
      VerifiedStays(old(db), db, c, ev, obs);
      ghost var ready := db;
      r := ExecuteAndComplete(c, ev, obs);
      LeadsTransitive(old(db), invoked, ready, invoked, db, invoked);
    }

    /** The last two moves; complete_step's answer is not looked at. */
    method ExecuteAndComplete(c: DriveCall, ghost ev: Id, ghost obs: Id) returns (r: Drive)
      requires Verified(db, c, ev, obs) && c.step in db.steps
      modifies this`db
      ensures r == DroveToEnd ==> Driven(db, c)
      ensures Leads(old(db), invoked, db, invoked)
      ensures r == DroveToEnd <==>
                TransitionTx(old(db), c.step, OfStep(SExecuting), old(db).steps[c.step].revision).res.Ok?
    {
      hide Verified, TransitionTx, Leads, Driven, CompleteStepTx;
      LeadsNowhere(db, invoked);
      TransitionLeads(db, invoked, db, invoked, c.step, SExecuting, db.steps[c.step].revision);
      var t := TransitionObject(c.step, OfStep(SExecuting), db.steps[c.step].revision);
      if !t.Ok? { return Threw; }
      StepMoved(old(db), c.step, SExecuting);
      VerifiedStays(old(db), db, c, ev, obs);
      ghost var executing := db;
      CompletionLeads(old(db), invoked, executing, invoked, c.step, executing.steps[c.step].revision);
      StepCompletes(executing, c.step);
      var _ := CompleteStep(c.step, db.steps[c.step].revision);
      VerifiedStays(executing, db, c, ev, obs);
      VerifiedDrives(db, c, ev, obs);
      return DroveToEnd;
    }
  }

  lemma NotThere(d: Db, step: Id)
    requires step !in d.steps
    ensures !Enterable(d, step)
  {
  }

  /** Once READY is entered EXECUTING can be, and READY can be entered exactly from an enterable step. */
  lemma FinishDecides(d: Db, step: Id)
    requires step in d.steps && Apart(d, step)
    ensures var first := TransitionTx(d, step, OfStep(SReady), d.steps[step].revision);
            && (first.res.Ok? <==> Enterable(d, step))
            && (first.res.Ok? ==>
                  step in first.db.steps
                  && TransitionTx(first.db, step, OfStep(SExecuting), first.db.steps[step].revision).res.Ok?)
  {
    hide Finishes, TransitionTx, Enterable;
    StepFinishes(d, step);
    var first := TransitionTx(d, step, OfStep(SReady), d.steps[step].revision);
    if first.res.Ok? { FinishesMeans(first.db, step, d.steps[step].revision); }
  }

  lemma MismatchNeverAsks(d: Db, a: Action, p: Id)
    ensures PlanMismatchReason(d, a, p) != Some(ConfirmationRequired)
  {
  }

  lemma NoQuery(d: Db, a: Id, gate: Gate)
    ensures gate == NoGate ==> Queried(d, a, None, gate)
  {
  }

  /** A verification run to its end touches no other row. */
  lemma RanOne(d: Db, ver: Id, action: Option<Id>, verdict: Verdict)
    ensures var d1 := StartVerificationTx(d, ver, action).db;
            forall v :: v != ver && Passed(d, v) ==> Passed(FinishVerificationTx(d1, ver, action, verdict).db, v)
  {
    hide StartVerificationTx, FinishVerificationTx;
    StartedOne(d, ver, action);
    FinishedOne(StartVerificationTx(d, ver, action).db, ver, action, verdict);
  }

  lemma StartedOne(d: Db, ver: Id, action: Option<Id>)
    ensures forall v :: v != ver && Passed(d, v) ==> Passed(StartVerificationTx(d, ver, action).db, v)
  {
    hide GateFault;
  }

  lemma FinishedOne(d: Db, ver: Id, action: Option<Id>, verdict: Verdict)
    ensures forall v :: v != ver && Passed(d, v) ==> Passed(FinishVerificationTx(d, ver, action, verdict).db, v)
  {
    hide GateFault, ClaimExists;
  }

  lemma StepMoved(d: Db, step: Id, s: StepStatus)
    requires step in d.steps && TransitionTx(d, step, OfStep(s), d.steps[step].revision).res.Ok?
    ensures var d' := TransitionTx(d, step, OfStep(s), d.steps[step].revision).db;
            step in d'.steps && d'.steps[step].status == s
  {
    hide StepNext;
  }

  lemma StepCompletes(d: Db, step: Id)
    requires step in d.steps && d.steps[step].status == SExecuting
    ensures var d' := CompleteStepTx(d, step, d.steps[step].revision).db;
            step in d'.steps && d'.steps[step].status == SCompleted
  {
  }

  lemma RecordedEvidence(d: Db, obs: Id)
    requires obs in d.observations
    ensures var r := EvidencePipeline.Apply(d, RecordRuntime(obs));
            && r.res.Ok? && r.res.made.Some? && RestsOn(r.db, r.res.made.value, obs)
            && r.db == d.(next := r.db.next, evidence := r.db.evidence)
  {
  }

  /** Everything a step needs before it may be completed. */
  predicate Verified(d: Db, c: DriveCall, ev: Id, obs: Id) {
    && ObservedFor(d, c, obs) && RestsOn(d, ev, obs)
    && forall j :: 0 <= j < |c.bindings| && c.bindings[j].0 == c.step ==> Passed(d, c.bindings[j].1)
  }

  lemma VerifiedStays(d: Db, d': Db, c: DriveCall, ev: Id, obs: Id)
    requires Verified(d, c, ev, obs)
    requires d' == d.(goals := d'.goals, tasks := d'.tasks, plans := d'.plans, steps := d'.steps)
    ensures Verified(d', c, ev, obs)
  {
  }

  lemma VerifiedDrives(d: Db, c: DriveCall, ev: Id, obs: Id)
    requires Verified(d, c, ev, obs) && c.step in d.steps && d.steps[c.step].status == SCompleted
    ensures Driven(d, c)
  {
  }

  /** One call of _drive_step: the action as proposed, the step's registry facts, the bindings (step, verification), and
      what the outside answers: the capability, the evaluators and the confirming human. */
  datatype DriveCall = DriveCall(plan: Id, step: Id, action: Id, revision: nat, capability: string, arguments: string,
                                 required: bool, bindings: seq<(Id, Id)>, methodNames: set<string>, reply: Reply,
                                 verdicts: map<Id, Verdict>, approved: bool, now: int)

  /** The same as the job of a driver among others. */
  function JobOf(c: DriveCall): D.Job {
    D.Job(c.plan, c.step, c.action, c.revision, c.required, c.bindings, c.methodNames)
  }

  /** The verifications whose evaluator is satisfied. */
  function SatisfiedBy(c: DriveCall): set<Id> { set v | v in c.verdicts && c.verdicts[v] == Satisfied }

  /** Without a crash an attempt is decided by the begin: refused with it, or observed. */
  ghost predicate Attempted(d: Db, d': Db, c: DriveCall, gate: Gate, r: Result) {
    var first := BeginTx(d, c.action, c.revision, Some(c.plan), gate);
    && (first.res.Ok? || r == Rejected(ConfirmationRequired) ==> Queried(d, c.action, Some(c.required), gate))
    && (!first.res.Ok? ==> d' == d && r == first.res)
    && (first.res.Ok? && c.reply.Value? ==> r.Ok? && ObservedOnly(d, d', c.action))
  }

  lemma AttemptDecides(d: Db, e: seq<Invocation>, d': Db, e': seq<Invocation>, c: DriveCall, gate: Gate, r: Result)
    requires Executed(d, {}, e, d', e', c.action, c.revision, Some(c.plan), gate, c.reply, r)
    requires BeginTx(d, c.action, c.revision, Some(c.plan), gate).res.Ok? || r == Rejected(ConfirmationRequired) ==>
               Queried(d, c.action, Some(c.required), gate)
    ensures Attempted(d, d', c, gate, r)
  {
    hide BeginTx, EndTx, Queried, ObservedOnly;
    RefusedBegin(d, c.action, c.revision, Some(c.plan), gate);
    if BeginTx(d, c.action, c.revision, Some(c.plan), gate).res.Ok? && c.reply.Value? {
      ExecutedTwoSteps(d, JobOf(c), gate, c.reply.raw);
    }
  }

  /** A drivable job is turned away only by a required gate, with nothing written. */
  lemma FirstAttempt(d: Db, d': Db, c: DriveCall, gate: Gate, r: Result)
    requires Attempted(d, d', c, gate, r) && c.reply.Value?
    ensures r == Rejected(ConfirmationRequired) ==> d' == d
    ensures Drivable(d, JobOf(c), SatisfiedBy(c)) ==> r.Ok? || (r == Rejected(ConfirmationRequired) && c.required)
  {
    hide BeginTx, ObservedOnly, BindingsReady, ServesActive, Answers, QueryAnswer;
    if Drivable(d, JobOf(c), SatisfiedBy(c)) {
      OnlyTheGate(d, JobOf(c), gate);
      BeginCommitsIff(d, c.action, c.revision, Some(c.plan), gate);
    }
  }

  /** The store once the row for the call is staged and confirmed. */
  ghost predicate StagedFor(d: Db, mid: Db, c: DriveCall) {
    mid == Safety.Apply(Safety.Apply(d, Safety.CreateConfirmation(c.action, c.revision, c.capability, c.arguments)).db,
                        Confirm(Id(ConfirmationK, d.next), c.now)).db
  }

  lemma ConfirmedRowsOnly(d: Db, mid: Db, c: DriveCall)
    requires Inv(d) && StagedFor(d, mid, c)
    ensures Id(ConfirmationK, d.next) !in d.confirmations
    ensures mid == d.(next := mid.next, confirmations := d.confirmations[Id(ConfirmationK, d.next) :=
                      Confirmation(c.action, c.revision, c.capability, c.arguments, Some(c.now))])
  {
    hide Inv, Safety.Apply;
    StagedRow(d, c.action, c.revision, c.capability, c.arguments);
    ConfirmedRow(Safety.Apply(d, Safety.CreateConfirmation(c.action, c.revision, c.capability, c.arguments)).db,
                 Id(ConfirmationK, d.next), c.now);
  }

  /** With a confirmation that will open the gate it is not turned away twice. */
  lemma SecondAttempt(d: Db, mid: Db, d': Db, c: DriveCall, gate: Gate, r: Result)
    requires Inv(d) && StagedFor(d, mid, c) && Attempted(mid, d', c, gate, r) && c.reply.Value?
    ensures Drivable(d, JobOf(c), SatisfiedBy(c)) <==> Drivable(mid, JobOf(c), SatisfiedBy(c))
    ensures Drivable(d, JobOf(c), SatisfiedBy(c)) && WillOpen(d, c.action, c.capability, c.arguments, c.now) ==> r.Ok?
  {
    hide Inv, BeginTx, ObservedOnly, BindingsReady, ServesActive, Answers, QueryAnswer, WillOpen, StagedFor;
    ConfirmedRowsOnly(d, mid, c);
    DrivableStill(d, mid, JobOf(c), SatisfiedBy(c));
    if Drivable(d, JobOf(c), SatisfiedBy(c)) && WillOpen(d, c.action, c.capability, c.arguments, c.now) {
      OnlyTheGate(mid, JobOf(c), gate);
      BeginCommitsIff(mid, c.action, c.revision, Some(c.plan), gate);
      if c.required && Queried(mid, c.action, Some(c.required), gate) {
        ConfirmationOpens(d, mid, c.action, c.capability, c.arguments, c.now, gate);
      }
    }
  }

  /** After a committed attempt the verifications and the step decide. */
  lemma AttemptLeft(d: Db, tried: Db, d': Db, c: DriveCall, gate: Gate, r: Result)
    requires Inv(d) && Attempted(tried, d', c, gate, r) && r.Ok? && c.reply.Value?
    requires tried == d.(next := tried.next, confirmations := tried.confirmations)
    ensures Drivable(d, JobOf(c), SatisfiedBy(c)) <==> BindingsReady(d', JobOf(c), SatisfiedBy(c), 0) && Enterable(d', c.step)
    ensures c.step in d'.steps ==> Apart(d', c.step)
  {
    hide Inv, BeginTx, BindingsReady, ServesActive, Answers, Queried;
    DrivableStill(d, tried, JobOf(c), SatisfiedBy(c));
    BeginCommitsIff(tried, c.action, c.revision, Some(c.plan), gate);
    SameBindings(tried, d', JobOf(c), SatisfiedBy(c), 0);
    if c.step in d.steps { StepsApart(d, c.step); }
  }

  lemma ObservedStays(d: Db, d': Db, c: DriveCall, ev: Id, obs: Id)
    requires ObservedFor(d, c, obs) && RestsOn(d, ev, obs) && d' == d.(verifications := d'.verifications)
    ensures ObservedFor(d', c, obs) && RestsOn(d', ev, obs)
  {
  }

  lemma ActionIsObserved(d: Db, c: DriveCall, obs: Id)
    requires ObservedFor(d, c, obs)
    ensures c.action in d.actions && d.actions[c.action].status == AObserved
  {
  }

  lemma SameStep(d: Db, d': Db, step: Id)
    requires d' == d.(next := d'.next, evidence := d'.evidence, verifications := d'.verifications)
    ensures Enterable(d', step) == Enterable(d, step) && Apart(d', step) == Apart(d, step)
  {
  }

  /** One bound verification run: what is asked from the next binding on is what was asked from this one, if it passed. */
  predicate BindingRan(d: Db, d': Db, c: DriveCall, i: nat, passed: bool) {
    && (passed ==> (BindingsReady(d', JobOf(c), SatisfiedBy(c), i + 1) <==> BindingsReady(d, JobOf(c), SatisfiedBy(c), i)))
    && (!passed ==> !BindingsReady(d, JobOf(c), SatisfiedBy(c), i))
  }

  lemma BindingStops(d: Db, c: DriveCall, i: nat)
    requires i < |c.bindings| && c.bindings[i].0 == c.step
    ensures c.bindings[i].1 !in d.verifications || d.verifications[c.bindings[i].1].methodName !in c.methodNames ==>
              BindingRan(d, d, c, i, false)
  {
    hide Evaluable;
    NotEvaluable(d, c, i);
  }

  lemma NotEvaluable(d: Db, c: DriveCall, i: nat)
    requires i < |c.bindings| && c.bindings[i].0 == c.step
    ensures !Evaluable(d, JobOf(c), SatisfiedBy(c), c.bindings[i].1) ==> !BindingsReady(d, JobOf(c), SatisfiedBy(c), i)
    ensures c.bindings[i].1 !in d.verifications || d.verifications[c.bindings[i].1].methodName !in c.methodNames ==>
              !Evaluable(d, JobOf(c), SatisfiedBy(c), c.bindings[i].1)
  {
    hide ClaimExists;
    assert JobOf(c).bindings[i].0 == JobOf(c).step;
  }

  lemma EvaluationsAnswer(d: Db, v: Id, action: Option<Id>, verdict: Verdict)
    ensures var first := StartVerificationTx(d, v, action);
            first.res != Noop && FinishVerificationTx(first.db, v, action, verdict).res != Noop
  {
    hide GateFault, ClaimExists;
  }

  lemma BindingEvaluated(d: Db, d': Db, c: DriveCall, i: nat, verdict: Verdict, r: Result)
    requires i < |c.bindings| && c.bindings[i].0 == c.step && c.action in d.actions && d.actions[c.action].status == AObserved
    requires c.bindings[i].1 in d.verifications && d.verifications[c.bindings[i].1].methodName in c.methodNames
    requires verdict == Satisfied <==> c.bindings[i].1 in SatisfiedBy(c)
    requires var first := StartVerificationTx(d, c.bindings[i].1, Some(c.action));
             Tx(d', r) == if first.res.Ok? then FinishVerificationTx(first.db, c.bindings[i].1, Some(c.action), verdict) else first
    ensures BindingRan(d, d', c, i, r.Ok? && Passed(d', c.bindings[i].1)) && r != Noop
  {
    EvaluationsAnswer(d, c.bindings[i].1, Some(c.action), verdict);
    hide StartVerificationTx, FinishVerificationTx, Evaluable, BindingsReady;
    var v := c.bindings[i].1;
    EvaluationPasses(d, JobOf(c), SatisfiedBy(c), v, verdict);
    if Evaluable(d, JobOf(c), SatisfiedBy(c), v) {
      BindingsNext(d, d', JobOf(c), SatisfiedBy(c), i);
    } else {
      NotEvaluable(d, c, i);
    }
  }

  datatype Drive = DroveToEnd | EndedOtherwise | Halted(reason: Reason) | Threw | Died

  predicate ObservedFor(d: Db, c: DriveCall, obs: Id) {
    && c.reply.Value? && ObservedAs(d, c.action, c.reply.raw, obs)
    && c.action in d.actions && d.actions[c.action].status == AObserved
  }

  /** A step driven to its end: its action OBSERVED with what the capability returned, runtime evidence of that
      Observation on record, every verification bound to the step PASS, and the step COMPLETED. */
  ghost predicate Driven(d: Db, c: DriveCall) {
    && (exists obs, ev :: ObservedFor(d, c, obs) && RestsOn(d, ev, obs))
    && (forall j :: 0 <= j < |c.bindings| && c.bindings[j].0 == c.step ==> Passed(d, c.bindings[j].1))
    && c.step in d.steps && d.steps[c.step].status == SCompleted
  }

  /** Midway through recover: the actions handled so far, and those still to handle. */
  ghost predicate Swept(d: Db, now: Db, todo: set<Id>, ids: seq<Id>) {
    && Elements(ids) + todo == Stuck(d) && Elements(ids) !! todo
    && now == RecoverAll(d, ids) && now.actions.Keys == d.actions.Keys
    && (Inv(d) ==> Inv(now) && Recovered(d, now, Elements(ids)))
  }

  /** What recover reports: the actions it marked, and those it froze. */
  ghost predicate Reports(d: Db, ids: seq<Id>, recovered: seq<Id>, frozen: seq<Id>) {
    && (forall a :: a in recovered <==> a in Elements(ids) && BecomesUncertain(d, a))
    && (forall a :: a in frozen <==> a in Elements(ids) && Observed(d, a))
  }

  lemma SweepStarts(d: Db)
    ensures Swept(d, d, Stuck(d), []) && Reports(d, [], [], [])
  {
    hide Inv, Recovered, Stuck, Observed;
    NothingRecovered(d);
    assert Elements([]) == {};
  }

  lemma ReportsMore(d: Db, ids: seq<Id>, a: Id, recovered: seq<Id>, frozen: seq<Id>, marks: bool, freezes: bool)
    requires Reports(d, ids, recovered, frozen) && (marks <==> BecomesUncertain(d, a)) && (freezes <==> Observed(d, a))
    ensures Reports(d, ids + [a], if marks then recovered + [a] else recovered, if freezes then frozen + [a] else frozen)
  {
    hide BecomesUncertain, Observed;
    assert Elements(ids + [a]) == Elements(ids) + {a};
  }

  lemma SweepMore(d: Db, now: Db, todo: set<Id>, ids: seq<Id>, a: Id, recovered: seq<Id>, frozen: seq<Id>)
    requires Swept(d, now, todo, ids) && a in todo && (Inv(d) ==> Reports(d, ids, recovered, frozen))
    ensures a in now.actions && Swept(d, RecoverOne(now, a), todo - {a}, ids + [a])
    ensures var freezes := Classify(now, a) == IntegrityViolation;
            var marks := !freezes && MarkUnknownTx(now, a, now.actions[a].revision).res.Ok?;
            Inv(d) ==>
              Reports(d, ids + [a], if marks then recovered + [a] else recovered, if freezes then frozen + [a] else frozen)
  {
    hide Inv, Recovered, Observed, RecoverOne, MarkUnknownTx, Classify, OwningTask, Reports;
    assert a in now.actions by { assert a in Stuck(d); }
    KeysKept(now, a);
    assert (ids + [a])[..|ids + [a]| - 1] == ids;
    assert Elements(ids + [a]) == Elements(ids) + {a};
    assert Elements(ids + [a]) + (todo - {a}) == Elements(ids) + todo;
    if Inv(d) {
      StuckRow(d, now, Elements(ids), a);
      RecoverOneMore(d, now, Elements(ids), a);
      RecoverOneKeeps(now, a);
      ReportsMore(d, ids, a, recovered, frozen, BecomesUncertain(d, a), Observed(d, a));
    }
  }

  lemma KeysKept(d: Db, a: Id)
    requires a in d.actions
    ensures RecoverOne(d, a).actions.Keys == d.actions.Keys
  {
    hide Classify, MarkUnknownTx, FreezeActionTx;
  }

  lemma NoneMoved(d: Db)
    ensures MovedToUor(d, {}) == d
  {
    assert MovedToUor(d, {}).obligations == d.obligations;
  }

  lemma InScan(d: Db, obj: Id, o: Id)
    requires o in Subtree(d, obj)
    ensures o in d.obligations && d.obligations[o].disposition == Open && d.obligations[o].owner.Owned?
  {
  }

  lemma StillThere(d: Db, done: set<Id>, o: Id)
    requires o in d.obligations && o !in done
    ensures o in MovedToUor(d, done).obligations && MovedToUor(d, done).obligations[o] == d.obligations[o]
  {
  }

  /** No dependency index of a fault-free proposal is negative. */
  predicate ProposalIndicesOk(specs: seq<StepSpec>) {
    forall i, k :: 0 <= i < |specs| && 0 <= k < |specs[i].dependsOn| ==> specs[i].dependsOn[k] >= 0
  }

  lemma {:induction false} FaultFreeIndices(reg: Registry, specs: seq<StepSpec>)
    requires ProposalFault(reg, specs, 0).None?
    ensures ProposalIndicesOk(specs)
  {
    forall i, k | 0 <= i < |specs| && 0 <= k < |specs[i].dependsOn| ensures specs[i].dependsOn[k] >= 0 {
      FaultFree(reg, specs, 0, i);
    }
  }
}
