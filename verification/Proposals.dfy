/** Exactly which proposals create_plan_with_steps accepts (v5/work.py:310-450), said of the proposal as it was written. */
module Proposals {
  import opened Types
  import opened Graphs
  import opened Work
  import opened Invariants
  import opened Acceptance

  /** Known capability, dependencies in range and none twice. */
  predicate ShapeSound(reg: Registry, s: StepSpec, n: nat) {
    && s.capability != "" && s.capability in reg.capabilities
    && (forall i :: 0 <= i < |s.dependsOn| ==> 0 <= s.dependsOn[i] < n)
    && (forall i, j :: 0 <= i < j < |s.dependsOn| ==> s.dependsOn[i] != s.dependsOn[j])
  }

  /** A named, known method that applies to the step's capability. */
  predicate RequirementSound(reg: Registry, capability: string, r: Requirement) {
    r.methodName != "" && r.methodName in reg.methodNames && r.appliesTo == capability
  }

  predicate SpecSound(reg: Registry, s: StepSpec, n: nat) {
    ShapeSound(reg, s, n) && forall r :: r in s.requirements ==> RequirementSound(reg, s.capability, r)
  }

  /** Positions of the proposal, each depending on the next one, that come back to where they started. */
  predicate Circle(specs: seq<StepSpec>, p: seq<nat>) {
    && |p| > 1 && p[0] == p[|p| - 1]
    && (forall k :: 0 <= k < |p| ==> p[k] < |specs|)
    && (forall k :: 0 < k < |p| ==> p[k] in specs[p[k - 1]].dependsOn)
  }

  // ------------------------------------------------------------------ the faults of a proposal

  lemma {:induction false} NoRequirementFault(reg: Registry, capability: string, reqs: seq<Requirement>, k: nat)
    requires k <= |reqs|
    ensures RequirementFault(reg, capability, reqs, k).None?
       <==> forall j :: k <= j < |reqs| ==> RequirementSound(reg, capability, reqs[j])
    decreases |reqs| - k
  {
    if k < |reqs| { NoRequirementFault(reg, capability, reqs, k + 1); }
  }

  lemma IndicesMean(reg: Registry, s: StepSpec, n: nat)
    ensures ShapeSound(reg, s, n) <==>
              s.capability != "" && s.capability in reg.capabilities && IndicesOk(s.dependsOn, n, |s.dependsOn|)
  {
  }

  lemma NoSpecFault(reg: Registry, s: StepSpec, n: nat)
    ensures SpecFault(reg, s, n).None? <==> SpecSound(reg, s, n)
  {
    hide RequirementFault, RequirementSound, ShapeSound;
    IndicesMean(reg, s, n);
    NoRequirementFault(reg, s.capability, s.requirements, 0);
    assert forall j :: 0 <= j < |s.requirements| ==> s.requirements[j] in s.requirements;
  }

  lemma {:induction false} NoProposalFault(reg: Registry, specs: seq<StepSpec>, k: nat)
    requires k <= |specs|
    ensures ProposalFault(reg, specs, k).None? <==> forall i :: k <= i < |specs| ==> SpecSound(reg, specs[i], |specs|)
    decreases |specs| - k
  {
    hide SpecFault, SpecSound;
    if k < |specs| {
      NoSpecFault(reg, specs[k], |specs|);
      NoProposalFault(reg, specs, k + 1);
    }
  }

  // -------------------------------------------------------------------------- its graph

  lemma SuccByPosition(base: nat, specs: seq<StepSpec>, i: nat, j: nat)
    requires i < |specs|
    ensures Id(StepK, base + j) in Succ(ProposalGraph(base, specs), Id(StepK, base + i)) <==> j in specs[i].dependsOn
  {
    hide DependencyIds;
    GraphEntry(base, specs, i);
    DependencyByPosition(base, specs[i].dependsOn, j);
  }

  lemma DependencyByPosition(base: nat, deps: seq<int>, j: nat)
    ensures Id(StepK, base + j) in DependencyIds(base, deps) <==> j in deps
  {
    if j in deps {
      var k :| 0 <= k < |deps| && deps[k] == j;
      assert StepId(base, deps[k]) in DependencyIds(base, deps);
    }
  }

  lemma CircleIsCycle(base: nat, specs: seq<StepSpec>, p: seq<nat>)
    requires Circle(specs, p)
    ensures !Acyclic(ProposalGraph(base, specs))
  {
    hide ProposalGraph;
    var g := ProposalGraph(base, specs);
    var q := seq(|p|, i requires 0 <= i < |p| => Id(StepK, base + p[i]));
    forall k | 0 < k < |q| ensures q[k] in Succ(g, q[k - 1]) {
      SuccByPosition(base, specs, p[k - 1], p[k]);
    }
    assert IsPathBetween(g, q, q[0], q[0]);
    assert OnCycle(g, q[0]);
  }

  lemma OnlySteps(base: nat, specs: seq<StepSpec>, v: Id)
    requires Succ(ProposalGraph(base, specs), v) != {}
    ensures v.kind == StepK && base <= v.n < base + |specs|
  {
    hide DependencyIds;
    assert v in StepIds(base, |specs|);
  }

  lemma CycleIsCircle(base: nat, specs: seq<StepSpec>, v: Id) returns (p: seq<nat>)
    requires OnCycle(ProposalGraph(base, specs), v)
    ensures Circle(specs, p)
  {
    hide ProposalGraph;
    var g := ProposalGraph(base, specs);
    var q: seq<Id> :| |q| > 1 && IsPathBetween(g, q, v, v);
    forall k | 0 <= k < |q| ensures q[k].kind == StepK && base <= q[k].n < base + |specs| {
      if k < |q| - 1 {
        assert q[k + 1] in Succ(g, q[k]);
        OnlySteps(base, specs, q[k]);
      } else {
        assert q[1] in Succ(g, q[0]);
        OnlySteps(base, specs, q[0]);
      }
    }
    p := seq(|q|, i requires 0 <= i < |q| => if q[i].n >= base then q[i].n - base else 0);
    forall k | 0 < k < |p| ensures p[k] in specs[p[k - 1]].dependsOn {
      assert q[k] in Succ(g, q[k - 1]);
      assert q[k] == Id(StepK, base + p[k]) && q[k - 1] == Id(StepK, base + p[k - 1]);
      SuccByPosition(base, specs, p[k - 1], p[k]);
    }
  }

  lemma AcyclicMeans(base: nat, specs: seq<StepSpec>)
    ensures Acyclic(ProposalGraph(base, specs)) <==> forall p :: !Circle(specs, p)
  {
    hide ProposalGraph, Circle, OnCycle;
    if p :| Circle(specs, p) { CircleIsCycle(base, specs, p); }
    if v :| OnCycle(ProposalGraph(base, specs), v) { var p := CycleIsCircle(base, specs, v); }
  }

  // ---------------------------------------------------------------------------- theorems

  /** A proposal is accepted exactly for a live task at the expected revision, with at least one step, every step sound, and
      no circle in the dependencies it declares. A refused one leaves the store as it was. */
  lemma ProposalCommitsIff(d: Db, reg: Registry, task: Id, specs: seq<StepSpec>, expected: nat)
    ensures var r := Work.Apply(d, CreatePlanWithSteps(reg, task, specs, expected));
            r.res.Ok? <==>
              && task in d.tasks && d.tasks[task].revision == expected
              && d.tasks[task].status !in {TCompleted, TFailed, TCancelled, TArchived}
              && specs != []
              && (forall i :: 0 <= i < |specs| ==> SpecSound(reg, specs[i], |specs|))
              && (forall p :: !Circle(specs, p))
    ensures var r := Work.Apply(d, CreatePlanWithSteps(reg, task, specs, expected));
            if r.res.Ok? then r.res == Ok(Some(Id(PlanK, d.next)), 0) else r.db == d
  {
    hide ProposalFault, SpecSound, Circle, Acyclic, ProposalGraph, AcceptedPlan;
    NoProposalFault(reg, specs, 0);
    AcyclicMeans(d.next + 1, specs);
  }

  /** Step i of an accepted proposal depends on step j, in its row and in the committed graph, exactly when the proposal said
      so, and on nothing else. */
  lemma DependsAsDeclared(d: Db, reg: Registry, task: Id, specs: seq<StepSpec>, expected: nat, i: nat, v: Id)
    requires Inv(d) && Work.Apply(d, CreatePlanWithSteps(reg, task, specs, expected)).res.Ok? && i < |specs|
    ensures var d', s := Work.Apply(d, CreatePlanWithSteps(reg, task, specs, expected)).db, Id(StepK, d.next + 1 + i);
            && s !in d.steps && s in d'.steps && d'.steps[s].planId == Id(PlanK, d.next) && Id(PlanK, d.next) in d'.plans
            && d'.steps[s].capability == specs[i].capability && d'.steps[s].required == specs[i].required
            && (v in d'.steps[s].dependsOn <==> v in Succ(d'.plans[Id(PlanK, d.next)].graph, s))
            && (v in d'.steps[s].dependsOn <==>
                  v.kind == StepK && v.n >= d.next + 1 && v.n - (d.next + 1) in specs[i].dependsOn)
  {
    hide Inv, CreatePlanWithStepsTx, ProposalGraph, DependencyIds, SpecsAccepted, AddsRequirements, AllBound;
    AcceptanceAddsExactly(d, reg, task, specs, expected);
    GraphEntry(d.next + 1, specs, i);
    DependencyIsStep(d.next + 1, specs[i].dependsOn, v);
    assert IsNewStep(Work.Apply(d, CreatePlanWithSteps(reg, task, specs, expected)).db.steps, Id(PlanK, d.next), d.next + 1, specs, i);
  }

  lemma DependencyIsStep(base: nat, deps: seq<int>, v: Id)
    ensures v in DependencyIds(base, deps) <==> v.kind == StepK && v.n >= base && v.n - base in deps
  {
    hide DependencyIds;
    if v.kind == StepK && v.n >= base {
      DependencyByPosition(base, deps, v.n - base);
      assert v == Id(StepK, base + (v.n - base));
    } else if v in DependencyIds(base, deps) {
      ListedIsStep(base, deps, v);
    }
  }

  lemma ListedIsStep(base: nat, deps: seq<int>, v: Id)
    requires v in DependencyIds(base, deps)
    ensures v.kind == StepK && v.n >= base
  {
  }

  /** Why a proposal is refused: the first fault in the order it was written. */
  ghost predicate FirstFault(reg: Registry, specs: seq<StepSpec>, i: nat, why: Reason)
    requires i < |specs|
  {
    && (forall k :: 0 <= k < i ==> SpecSound(reg, specs[k], |specs|))
    && !SpecSound(reg, specs[i], |specs|)
    && if !ShapeSound(reg, specs[i], |specs|) then why == MalformedProposal
       else exists j :: FirstBadRequirement(reg, specs[i], j, why)
  }

  predicate FirstBadRequirement(reg: Registry, s: StepSpec, j: int, why: Reason) {
    && 0 <= j < |s.requirements| && !RequirementSound(reg, s.capability, s.requirements[j])
    && (forall k :: 0 <= k < j ==> RequirementSound(reg, s.capability, s.requirements[k]))
    && why == if s.requirements[j].methodName == "" then MalformedProposal
              else if s.requirements[j].methodName !in reg.methodNames then UnknownMethod
              else CapabilityMismatch
  }

  lemma {:induction false} BadRequirement(reg: Registry, s: StepSpec, k: nat)
    requires k <= |s.requirements| && RequirementFault(reg, s.capability, s.requirements, k).Some?
    requires forall j :: 0 <= j < k ==> RequirementSound(reg, s.capability, s.requirements[j])
    ensures exists j :: FirstBadRequirement(reg, s, j, RequirementFault(reg, s.capability, s.requirements, k).value)
    decreases |s.requirements| - k
  {
    if RequirementSound(reg, s.capability, s.requirements[k]) {
      BadRequirement(reg, s, k + 1);
    } else {
      assert FirstBadRequirement(reg, s, k, RequirementFault(reg, s.capability, s.requirements, k).value);
    }
  }

  lemma BadSpec(reg: Registry, specs: seq<StepSpec>, i: nat)
    requires i < |specs| && SpecFault(reg, specs[i], |specs|).Some?
    requires forall k :: 0 <= k < i ==> SpecSound(reg, specs[k], |specs|)
    ensures FirstFault(reg, specs, i, SpecFault(reg, specs[i], |specs|).value)
  {
    hide RequirementFault, RequirementSound, SpecSound, ShapeSound, FirstBadRequirement;
    NoSpecFault(reg, specs[i], |specs|);
    IndicesMean(reg, specs[i], |specs|);
    if ShapeSound(reg, specs[i], |specs|) { BadRequirement(reg, specs[i], 0); }
  }

  lemma {:induction false} BadProposal(reg: Registry, specs: seq<StepSpec>, k: nat)
    requires k <= |specs| && ProposalFault(reg, specs, k).Some?
    requires forall i :: 0 <= i < k ==> SpecSound(reg, specs[i], |specs|)
    ensures exists i :: 0 <= i < |specs| && FirstFault(reg, specs, i, ProposalFault(reg, specs, k).value)
    decreases |specs| - k
  {
    hide SpecFault, SpecSound, FirstFault;
    NoSpecFault(reg, specs[k], |specs|);
    if SpecFault(reg, specs[k], |specs|).None? {
      BadProposal(reg, specs, k + 1);
    } else {
      BadSpec(reg, specs, k);
    }
  }

  ghost predicate RefusedFor(reg: Registry, specs: seq<StepSpec>, why: Reason) {
    if forall i :: 0 <= i < |specs| ==> SpecSound(reg, specs[i], |specs|) then why == DependencyCycle
    else exists i :: 0 <= i < |specs| && FirstFault(reg, specs, i, why)
  }

  /** A non-empty proposal for a live task at the expected revision that has an unsound step is refused with its first fault;
      one whose steps are sound but turn in a circle with DEPENDENCY_CYCLE. */
  lemma RefusedForItsFirstFault(d: Db, reg: Registry, task: Id, specs: seq<StepSpec>)
    requires task in d.tasks && d.tasks[task].status !in {TCompleted, TFailed, TCancelled, TArchived} && specs != []
    ensures var r := Work.Apply(d, CreatePlanWithSteps(reg, task, specs, d.tasks[task].revision));
            r.res.Ok? || (r.res.Rejected? && RefusedFor(reg, specs, r.res.reason))
  {
    hide ProposalFault, SpecSound, Acyclic, ProposalGraph, AcceptedPlan, FirstFault;
    NoProposalFault(reg, specs, 0);
    if ProposalFault(reg, specs, 0).Some? { BadProposal(reg, specs, 0); }
  }
}
