/** What an accepted plan leaves behind, row by row, and that its committed graph can be walked. */
module Acceptance {
  import opened Types
  import opened Graphs
  import opened Work
  import opened Invariants
  import opened RowWrites
  import opened WorkProofs
  import opened StrictProofs

  /** Requirements declared by the first i steps. */
  function Declared(specs: seq<StepSpec>, i: nat): nat
    requires i <= |specs|
  {
    if i == 0 then 0 else Declared(specs, i - 1) + |specs[i - 1].requirements|
  }

  /** One declared requirement as committed: a claim resting on nothing, a PENDING verification of it bound
      to the step, and the binding to the task; ids `at` and `at + 1`. */
  predicate Bound(d: Db, task: Id, step: Id, methodName: string, at: nat) {
    var claim, ver := Id(ClaimK, at), Id(VerificationK, at + 1);
    && ClaimKey(claim, 1) in d.claims && d.claims[ClaimKey(claim, 1)] == Claim([], Unverified)
    && ver in d.verifications
    && d.verifications[ver] == Verification(claim, methodName, "deterministic", VPending, Some(step), false)
    && (task, ver) in d.required
  }

  /** d' has exactly n more claims, verifications and bindings; every earlier one is untouched. */
  predicate AddsRequirements(d: Db, d': Db, n: nat) {
    && d'.next == d.next + 2 * n
    && |d'.claims| == |d.claims| + n && |d'.verifications| == |d.verifications| + n && |d'.required| == |d.required| + n
    && (forall k :: k in d.claims ==> k in d'.claims && d'.claims[k] == d.claims[k])
    && (forall v :: v in d.verifications ==> v in d'.verifications && d'.verifications[v] == d.verifications[v])
    && d.required <= d'.required
  }

  lemma Fresh(d: Db, task: Id)
    requires Inv(d)
    ensures ClaimKey(Id(ClaimK, d.next), 1) !in d.claims && Id(VerificationK, d.next + 1) !in d.verifications
    ensures (task, Id(VerificationK, d.next + 1)) !in d.required
  {
    hide Inv;
    MintedKeys(d);
    InvHas(d, RequiredSound);
  }

  lemma OneRequirement(d: Db, task: Id, step: Id, methodName: string)
    requires Inv(d)
    ensures AddsRequirements(d, AcceptRequirement(d, task, step, methodName), 1)
    ensures Bound(AcceptRequirement(d, task, step, methodName), task, step, methodName, d.next)
  {
    hide Inv;
    Fresh(d, task);
  }

  lemma AddsTransitive(a: Db, b: Db, c: Db, m: nat, n: nat, sum: nat)
    requires AddsRequirements(a, b, m) && AddsRequirements(b, c, n) && sum == m + n
    ensures AddsRequirements(a, c, sum)
  {
  }

  lemma BoundStays(a: Db, b: Db, n: nat, task: Id, step: Id, methodName: string, at: nat)
    requires AddsRequirements(a, b, n) && Bound(a, task, step, methodName, at)
    ensures Bound(b, task, step, methodName, at)
  {
  }

  /** The first k requirements of a list, bound at `start` onwards. */
  predicate ListBound(d: Db, task: Id, step: Id, reqs: seq<Requirement>, start: nat, k: nat)
    requires k <= |reqs|
  {
    forall j: nat :: j < k ==> Bound(d, task, step, reqs[j].methodName, start + 2 * j)
  }

  lemma ListGrows(before: Db, after: Db, task: Id, step: Id, reqs: seq<Requirement>, start: nat, k: nat, at: nat)
    requires 0 < k <= |reqs| && ListBound(before, task, step, reqs, start, k - 1) && at == start + 2 * (k - 1)
    requires AddsRequirements(before, after, 1) && Bound(after, task, step, reqs[k - 1].methodName, at)
    ensures ListBound(after, task, step, reqs, start, k)
  {
    hide AddsRequirements, Bound;
    forall j: nat | j < k - 1 ensures Bound(after, task, step, reqs[j].methodName, start + 2 * j) {
      BoundStays(before, after, 1, task, step, reqs[j].methodName, start + 2 * j);
    }
  }

  lemma {:induction false} AcceptOneMore(d: Db, task: Id, step: Id, reqs: seq<Requirement>, k: nat)
    requires k <= |reqs|
    ensures AcceptRequirements(d, task, step, reqs, k)
         == if k == 0 then d
            else AcceptRequirement(AcceptRequirements(d, task, step, reqs, k - 1), task, step, reqs[k - 1].methodName)
  {
  }

  /** d' is d with the first k requirements of the list accepted. */
  predicate ListAccepted(d: Db, d': Db, task: Id, step: Id, reqs: seq<Requirement>, k: nat)
    requires k <= |reqs|
  {
    AddsRequirements(d, d', k) && ListBound(d', task, step, reqs, d.next, k)
  }

  lemma ListAcceptedMore(d: Db, before: Db, task: Id, step: Id, reqs: seq<Requirement>, k: nat)
    requires 0 < k <= |reqs| && ListAccepted(d, before, task, step, reqs, k - 1) && Inv(before)
    ensures ListAccepted(d, AcceptRequirement(before, task, step, reqs[k - 1].methodName), task, step, reqs, k)
  {
    hide Inv, AcceptRequirement, AddsRequirements, Bound, ListBound;
    var after := AcceptRequirement(before, task, step, reqs[k - 1].methodName);
    OneRequirement(before, task, step, reqs[k - 1].methodName);
    AddsTransitive(d, before, after, k - 1, 1, k);
    NextAfter(d, before, k - 1);
    ListGrows(before, after, task, step, reqs, d.next, k, before.next);
  }

  lemma {:induction false} RequirementsBound(d: Db, task: Id, step: Id, reqs: seq<Requirement>, k: nat)
    requires Inv(d) && step in d.steps && k <= |reqs|
    ensures ListAccepted(d, AcceptRequirements(d, task, step, reqs, k), task, step, reqs, k)
  {
    hide Inv, Keeps, AcceptRequirements, AcceptRequirement, AllMinted, ListAccepted;
    AcceptOneMore(d, task, step, reqs, k);
    if k == 0 {
      NoneAccepted(d, task, step, reqs);
    } else {
      RequirementsBound(d, task, step, reqs, k - 1);
      MintedKeys(d);
      AcceptRequirementsKeeps(d, d, task, step, reqs, k - 1);
      KeptInv(d, AcceptRequirements(d, task, step, reqs, k - 1));
      ListAcceptedMore(d, AcceptRequirements(d, task, step, reqs, k - 1), task, step, reqs, k);
    }
  }

  lemma KeptInv(a: Db, b: Db)
    requires Keeps(a, b)
    ensures Inv(b)
  {
  }

  lemma NoneAccepted(d: Db, task: Id, step: Id, reqs: seq<Requirement>)
    ensures ListAccepted(d, d, task, step, reqs, 0)
  {
  }

  lemma NextAfter(a: Db, b: Db, n: nat)
    requires AddsRequirements(a, b, n)
    ensures b.next == a.next + 2 * n
  {
  }

  /** Every requirement of every one of the first k steps is bound; requirement j of step i holds the ids
      start + 2 * (requirements before it). */
  predicate AllBound(d: Db, task: Id, base: nat, start: nat, specs: seq<StepSpec>, k: nat)
    requires k <= |specs|
  {
    forall i: nat, j: nat :: i < k && j < |specs[i].requirements| ==>
      Bound(d, task, StepId(base, i), specs[i].requirements[j].methodName, start + 2 * (Declared(specs, i) + j))
  }

  lemma {:induction false} AllBoundGrows(before: Db, after: Db, task: Id, base: nat, start: nat, specs: seq<StepSpec>, k: nat, n: nat)
    requires 0 < k <= |specs| && AllBound(before, task, base, start, specs, k - 1) && AddsRequirements(before, after, n)
    requires ListBound(after, task, StepId(base, k - 1), specs[k - 1].requirements, start + 2 * Declared(specs, k - 1),
                       |specs[k - 1].requirements|)
    ensures AllBound(after, task, base, start, specs, k)
  {
    hide AddsRequirements, Bound;
    forall i: nat, j: nat | i < k && j < |specs[i].requirements|
      ensures Bound(after, task, StepId(base, i), specs[i].requirements[j].methodName, start + 2 * (Declared(specs, i) + j))
    {
      if i < k - 1 {
        BoundStays(before, after, n, task, StepId(base, i), specs[i].requirements[j].methodName,
                   start + 2 * (Declared(specs, i) + j));
      } else {
        assert start + 2 * Declared(specs, i) + 2 * j == start + 2 * (Declared(specs, i) + j);
      }
    }
  }

  lemma {:induction false} AcceptOneStep(d: Db, task: Id, plan: Id, base: nat, graph: Graph, specs: seq<StepSpec>, k: nat)
    requires k <= |specs|
    ensures k == 0 ==> AcceptSteps(d, task, plan, base, graph, specs, k) == d
    ensures k > 0 ==>
              var before, id := AcceptSteps(d, task, plan, base, graph, specs, k - 1), StepId(base, k - 1);
              AcceptSteps(d, task, plan, base, graph, specs, k)
              == AcceptRequirements(before.(steps := before.steps[id := NewStep(plan, graph, id, specs[k - 1])]), task, id,
                                    specs[k - 1].requirements, |specs[k - 1].requirements|)
  {
    hide AcceptRequirements, NewStep;
  }

  /** d' is d with the requirements of the first k steps accepted. */
  predicate SpecsAccepted(d: Db, d': Db, task: Id, base: nat, specs: seq<StepSpec>, k: nat)
    requires k <= |specs|
  {
    AddsRequirements(d, d', Declared(specs, k)) && AllBound(d', task, base, d.next, specs, k)
  }

  lemma {:induction false} DeclaredMore(specs: seq<StepSpec>, k: nat)
    requires 0 < k <= |specs|
    ensures Declared(specs, k) == Declared(specs, k - 1) + |specs[k - 1].requirements|
  {
  }

  lemma {:induction false} StepListAt(d: Db, before: Db, withStep: Db, after: Db, task: Id, base: nat, specs: seq<StepSpec>, k: nat)
    requires 0 < k <= |specs| && withStep.next == before.next == d.next + 2 * Declared(specs, k - 1)
    requires ListAccepted(withStep, after, task, StepId(base, k - 1), specs[k - 1].requirements, |specs[k - 1].requirements|)
    ensures ListBound(after, task, StepId(base, k - 1), specs[k - 1].requirements, d.next + 2 * Declared(specs, k - 1),
                      |specs[k - 1].requirements|)
  {
    hide AddsRequirements, Bound, ListBound, Declared;
  }

  lemma SpecsAcceptedMore(d: Db, before: Db, withStep: Db, after: Db, task: Id, base: nat, specs: seq<StepSpec>, k: nat)
    requires 0 < k <= |specs| && SpecsAccepted(d, before, task, base, specs, k - 1)
    requires withStep == before.(steps := withStep.steps)
    requires ListAccepted(withStep, after, task, StepId(base, k - 1), specs[k - 1].requirements, |specs[k - 1].requirements|)
    ensures SpecsAccepted(d, after, task, base, specs, k)
  {
    hide AddsRequirements, Bound, ListBound, AllBound, Declared;
    var reqs := specs[k - 1].requirements;
    DeclaredMore(specs, k);
    StepAddsNone(before, withStep);
    AddsTransitive(before, withStep, after, 0, |reqs|, |reqs|);
    AddsTransitive(d, before, after, Declared(specs, k - 1), |reqs|, Declared(specs, k));
    NextAfter(d, before, Declared(specs, k - 1));
    StepListAt(d, before, withStep, after, task, base, specs, k);
    AllBoundGrows(before, after, task, base, d.next, specs, k, |reqs|);
  }

  lemma {:induction false} StepsBound(d: Db, task: Id, plan: Id, base: nat, graph: Graph, specs: seq<StepSpec>, k: nat)
    requires Inv(d) && plan in d.plans && k <= |specs| && Reserved(d, base, |specs|, 0)
    ensures SpecsAccepted(d, AcceptSteps(d, task, plan, base, graph, specs, k), task, base, specs, k)
  {
    hide Inv, AcceptSteps, AcceptRequirements, Reserved, ListAccepted, NewStep, SpecsAccepted;
    AcceptOneStep(d, task, plan, base, graph, specs, k);
    if k == 0 {
      NoSpecAccepted(d, task, base, specs);
    } else {
      StepsBound(d, task, plan, base, graph, specs, k - 1);
      var before := AcceptSteps(d, task, plan, base, graph, specs, k - 1);
      var id, reqs := StepId(base, k - 1), specs[k - 1].requirements;
      var withStep := before.(steps := before.steps[id := NewStep(plan, graph, id, specs[k - 1])]);
      StepInserted(d, task, plan, base, graph, specs, k);
      RequirementsBound(withStep, task, id, reqs, |reqs|);
      SpecsAcceptedMore(d, before, withStep, AcceptRequirements(withStep, task, id, reqs, |reqs|), task, base, specs, k);
    }
  }

  lemma NoSpecAccepted(d: Db, task: Id, base: nat, specs: seq<StepSpec>)
    ensures SpecsAccepted(d, d, task, base, specs, 0)
  {
  }

  lemma StepAddsNone(a: Db, b: Db)
    requires b == a.(steps := b.steps)
    ensures AddsRequirements(a, b, 0)
  {
  }

  lemma {:induction false} StepInserted(d: Db, task: Id, plan: Id, base: nat, graph: Graph, specs: seq<StepSpec>, k: nat)
    requires Inv(d) && plan in d.plans && 0 < k <= |specs| && Reserved(d, base, |specs|, 0)
    ensures var before := AcceptSteps(d, task, plan, base, graph, specs, k - 1);
            var id := StepId(base, k - 1);
            Inv(before.(steps := before.steps[id := NewStep(plan, graph, id, specs[k - 1])]))
  {
    hide Inv, Evolves, AcceptRequirements, AcceptSteps;
    MintedKeys(d);
    AcceptStepsKeeps(d, d, task, plan, base, graph, specs, k - 1);
    var before := AcceptSteps(d, task, plan, base, graph, specs, k - 1);
    var id := StepId(base, k - 1);
    PutStep(d, before, id, NewStep(plan, graph, id, specs[k - 1]));
  }

  // -------------------------------------------------------------------- the theorem

  /** Step i of the proposal as committed. */
  predicate IsNewStep(steps: map<Id, Step>, plan: Id, base: nat, specs: seq<StepSpec>, i: nat)
    requires i < |specs|
  {
    && StepId(base, i) in steps
    && steps[StepId(base, i)] == Step(0, plan, SPending, specs[i].required, DependencyIds(base, specs[i].dependsOn),
                                      specs[i].capability)
  }

  lemma PlanAddsNone(d: Db, w: Db, d': Db, task: Id, base: nat, specs: seq<StepSpec>)
    requires SpecsAccepted(w, d', task, base, specs, |specs|) && w == d.(next := w.next, plans := w.plans)
    ensures SpecsAccepted(d.(next := w.next), d', task, base, specs, |specs|)
  {
    hide AllBound;
  }

  lemma GraphEntry(base: nat, specs: seq<StepSpec>, i: nat)
    requires i < |specs|
    ensures StepId(base, i) in ProposalGraph(base, specs)
    ensures ProposalGraph(base, specs)[StepId(base, i)] == DependencyIds(base, specs[i].dependsOn)
  {
    hide DependencyIds;
  }

  lemma {:induction false} NewStepRows(d: Db, task: Id, specs: seq<StepSpec>)
    requires Inv(d)
    ensures var plan, base := Id(PlanK, d.next), d.next + 1;
            plan !in d.plans
            && AddsSteps(d.steps, d.steps + StepRows(plan, base, ProposalGraph(base, specs), specs, |specs|), plan, base, specs)
  {
    hide Inv, StepRows, ProposalGraph, DependencyIds;
    MintedKeys(d);
    var plan, base := Id(PlanK, d.next), d.next + 1;
    var graph := ProposalGraph(base, specs);
    RowsAt(plan, base, graph, specs, |specs|);
    forall i: nat | i < |specs|
      ensures StepId(base, i) !in d.steps && IsNewStep(d.steps + StepRows(plan, base, graph, specs, |specs|), plan, base, specs, i)
    {
      assert ReservedId(StepId(base, i), base, |specs|);
      GraphEntry(base, specs, i);
    }
  }

  /** Exactly one new DRAFT plan with the proposal's graph, and one new PENDING step per spec. */
  predicate AddsPlan(d: Db, d': Db, task: Id, specs: seq<StepSpec>) {
    var plan, base := Id(PlanK, d.next), d.next + 1;
    && plan !in d.plans && d'.plans == d.plans[plan := Plan(0, task, PDraft, None, ProposalGraph(base, specs))]
    && AddsSteps(d.steps, d'.steps, plan, base, specs)
  }

  predicate AddsSteps(steps: map<Id, Step>, steps': map<Id, Step>, plan: Id, base: nat, specs: seq<StepSpec>) {
    && (forall i: nat :: i < |specs| ==> StepId(base, i) !in steps && IsNewStep(steps', plan, base, specs, i))
    && (forall s :: s in steps' ==> s in steps || ReservedId(s, base, |specs|))
    && (forall s :: s in steps ==> s in steps' && steps'[s] == steps[s])
  }

  lemma AcceptedPlanAdds(d: Db, task: Id, specs: seq<StepSpec>)
    requires Inv(d) && task in d.tasks && Acyclic(ProposalGraph(d.next + 1, specs))
    ensures SameCore(d, AcceptedPlan(d, task, specs)) && AddsPlan(d, AcceptedPlan(d, task, specs), task, specs)
    ensures SpecsAccepted(d.(next := d.next + 1 + |specs|), AcceptedPlan(d, task, specs), task, d.next + 1, specs, |specs|)
  {
    hide Inv, AcceptSteps, SpecsAccepted, SameCore, Evolves, AddsSteps, ProposalGraph, Acyclic, Reserved, StepRows;
    var w := WithPlan(d, task, specs);
    var plan, base, graph := Id(PlanK, d.next), d.next + 1, ProposalGraph(d.next + 1, specs);
    WithPlanKeeps(d, task, specs);
    StepsBound(w, task, plan, base, graph, specs, |specs|);
    StepsTouch(w, task, plan, base, graph, specs, |specs|);
    PlanAddsNone(d, w, AcceptedPlan(d, task, specs), task, base, specs);
    NewStepRows(d, task, specs);
    SameCoreFrom(d, w, AcceptedPlan(d, task, specs));
  }

  /** An accepted proposal adds exactly one plan, one step per spec with the declared dependencies, and per
      requirement one claim, one PENDING verification and one binding; nothing that existed before is touched
      and no other table changes. */
  lemma {:induction false} AcceptanceAddsExactly(d: Db, reg: Registry, task: Id, specs: seq<StepSpec>, expected: nat)
    requires Inv(d) && CreatePlanWithStepsTx(d, reg, task, specs, expected).res.Ok?
    ensures var d', start := CreatePlanWithStepsTx(d, reg, task, specs, expected).db, d.next + 1 + |specs|;
            && SameCore(d, d')
            && AddsPlan(d, d', task, specs)
            && AddsRequirements(d.(next := start), d', Declared(specs, |specs|))
            && AllBound(d', task, d.next + 1, start, specs, |specs|)
  {
    hide Inv, AllBound, AddsRequirements, ProposalFault, SameCore, AddsPlan, ProposalGraph, Acyclic, AcceptedPlan;
    AcceptedPlanAdds(d, task, specs);
  }

  lemma SameCoreFrom(d: Db, w: Db, d': Db)
    requires SameCore(w, d') && w == d.(next := w.next, plans := w.plans)
    ensures SameCore(d, d')
  {
  }

  // ------------------------------------------------------------- the committed graph walks

  lemma {:induction false} FaultFree(reg: Registry, specs: seq<StepSpec>, k: nat, i: nat)
    requires k <= i < |specs| && ProposalFault(reg, specs, k).None?
    ensures IndicesOk(specs[i].dependsOn, |specs|, |specs[i].dependsOn|)
    decreases i - k
  {
    hide RequirementFault;
    if k < i { FaultFree(reg, specs, k + 1, i); }
  }

  /** The graph of every accepted proposal meets the precondition of the live loop's walk over the plan's steps,
      in whatever order they are listed: _dependency_order never raises on it. */
  lemma AcceptedGraphWalks(d: Db, reg: Registry, task: Id, specs: seq<StepSpec>, expected: nat, steps: seq<Id>)
    requires CreatePlanWithStepsTx(d, reg, task, specs, expected).res.Ok?
    requires Distinct(steps) && Elements(steps) == StepIds(d.next + 1, |specs|)
    ensures Walkable(steps, ProposalGraph(d.next + 1, specs))
  {
    hide Acyclic, AcceptedPlan, RequirementFault, OnCycle;
    var base := d.next + 1;
    var g := ProposalGraph(base, specs);
    forall v | v in Elements(steps) ensures Succ(g, v) <= Elements(steps) {
      var i: nat :| i < |specs| && v == StepId(base, i);
      FaultFree(reg, specs, 0, i);
      GraphEntry(base, specs, i);
      DependenciesListed(base, specs[i].dependsOn, |specs|);
    }
    NoCycles(g);
  }

  lemma DependenciesListed(base: nat, deps: seq<int>, n: nat)
    requires IndicesOk(deps, n, |deps|)
    ensures DependencyIds(base, deps) <= StepIds(base, n)
  {
    forall s | s in DependencyIds(base, deps) ensures s in StepIds(base, n) {
      var i :| 0 <= i < |deps| && deps[i] >= 0 && s == StepId(base, deps[i]);
      var k: nat := deps[i];
      assert k < n;
    }
  }

  lemma NoCycles(g: Graph)
    requires Acyclic(g)
    ensures forall v :: !OnCycle(g, v)
  {
  }

  // ---------------------------------------------- the order the live loop really follows

  /** The new steps in proposal order, which is what the walk over the empty in-memory graph answers. */
  function ProposedIds(base: nat, n: nat): seq<Id> { seq(n, i requires 0 <= i < n => StepId(base, i)) }

  lemma ProposedPrefix(base: nat, n: nat, k: nat)
    requires k <= n
    ensures Elements(ProposedIds(base, n)[..k]) == StepIds(base, k)
  {
    var ids := ProposedIds(base, n);
    forall v | v in StepIds(base, k) ensures v in ids[..k] {
      var i: nat :| i < k && v == StepId(base, i);
      assert ids[..k][i] == v;
    }
  }

  /** Every dependency points backwards in the proposal. */
  predicate PointsBackwards(specs: seq<StepSpec>) {
    forall i, k :: 0 <= i < |specs| && 0 <= k < |specs[i].dependsOn| ==> specs[i].dependsOn[k] < i
  }

  lemma BackwardsListed(base: nat, deps: seq<int>, i: nat)
    requires forall k :: 0 <= k < |deps| ==> deps[k] >= 0
    ensures DependencyIds(base, deps) <= StepIds(base, i) <==> forall k :: 0 <= k < |deps| ==> deps[k] < i
  {
    if DependencyIds(base, deps) <= StepIds(base, i) {
      forall k | 0 <= k < |deps| ensures deps[k] < i {
        assert StepId(base, deps[k]) in DependencyIds(base, deps);
      }
    }
    if forall k :: 0 <= k < |deps| ==> deps[k] < i {
      forall v | v in DependencyIds(base, deps) ensures v in StepIds(base, i) {
        var k :| 0 <= k < |deps| && deps[k] >= 0 && v == StepId(base, deps[k]);
        var j: nat := deps[k];
        assert j < i;
      }
    }
  }

  /** The live loop walks an empty graph and so runs the steps in proposal order (v5/live_loop.py:871-872). That order
      honours the committed graph exactly when every dependency points backwards. */
  lemma ProposalOrderHonours(base: nat, specs: seq<StepSpec>)
    requires forall i :: 0 <= i < |specs| ==> IndicesOk(specs[i].dependsOn, |specs|, |specs[i].dependsOn|)
    ensures Edgeless(ProposedIds(base, |specs|), map[])
    ensures DependenciesFirst(ProposedIds(base, |specs|), ProposalGraph(base, specs)) <==> PointsBackwards(specs)
  {
    hide DependencyIds, ProposalGraph, StepIds;
    var ids := ProposedIds(base, |specs|);
    forall i: nat | i < |specs|
      ensures Succ(ProposalGraph(base, specs), ids[i]) <= Elements(ids[..i])
         <==> forall k :: 0 <= k < |specs[i].dependsOn| ==> specs[i].dependsOn[k] < i
    {
      GraphEntry(base, specs, i);
      ProposedPrefix(base, |specs|, i);
      BackwardsListed(base, specs[i].dependsOn, i);
    }
  }

  /** An accepted proposal whose proposal order does not: the first of two steps depends on the second. */
  lemma ForwardProposalAccepted(d: Db, reg: Registry, task: Id, capability: string)
    requires task in d.tasks && !TaskTerminal(d.tasks[task].status) && capability != "" && capability in reg.capabilities
    ensures var specs := [StepSpec(capability, true, [1], []), StepSpec(capability, true, [], [])];
            && CreatePlanWithStepsTx(d, reg, task, specs, d.tasks[task].revision).res.Ok?
            && !DependenciesFirst(ProposedIds(d.next + 1, 2), ProposalGraph(d.next + 1, specs))
  {
    hide ProposalGraph, AcceptedPlan, Acyclic;
    var specs := [StepSpec(capability, true, [1], []), StepSpec(capability, true, [], [])];
    var base := d.next + 1;
    assert ProposalFault(reg, specs, 2).None? && ProposalFault(reg, specs, 1).None? && ProposalFault(reg, specs, 0).None?;
    EmptyGraphAcyclic();
    SinkEdgeAcyclic(map[], StepId(base, 0), StepId(base, 1));
    TwoSteps(base, specs);
    SubgraphAcyclic(map[StepId(base, 0) := {StepId(base, 1)}], ProposalGraph(base, specs));
    ProposalOrderHonours(base, specs);
    assert specs[0].dependsOn[0] == 1;
  }

  lemma TwoSteps(base: nat, specs: seq<StepSpec>)
    requires |specs| == 2 && specs[0].dependsOn == [1] && specs[1].dependsOn == []
    ensures forall v :: Succ(ProposalGraph(base, specs), v) <= Succ(map[StepId(base, 0) := {StepId(base, 1)}], v)
  {
    GraphEntry(base, specs, 0);
    GraphEntry(base, specs, 1);
    GraphKeys(base, specs);
    forall v ensures Succ(ProposalGraph(base, specs), v) <= Succ(map[StepId(base, 0) := {StepId(base, 1)}], v) {
      if v in ProposalGraph(base, specs) && v != StepId(base, 0) { assert v == StepId(base, 1); }
    }
  }
}
