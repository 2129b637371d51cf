/** One row written (inserted or updated): when it keeps Inv and is an Evolves step.
    Every transaction is a few of these. */
module RowWrites {
  import opened Types
  import opened Graphs
  import opened Invariants

  predicate Usable(d: Db, id: Id, k: Kind) { id.kind == k && id.n < d.next }

  /** One or several commits on: the invariant holds again, nothing went backwards. */
  ghost predicate Keeps(a: Db, b: Db) { Inv(b) && Evolves(a, b) }

  lemma KeepsTransitive(a: Db, b: Db, c: Db)
    requires Keeps(a, b) && Keeps(b, c)
    ensures Keeps(a, c)
  {
    EvolvesTransitive(a, b, c);
  }

  lemma InvHas(d: Db, c: Clause)
    requires Inv(d)
    ensures Holds(c, d)
  {
  }

  lemma MintedKeys(d: Db)
    requires Inv(d)
    ensures AllMinted(d) && Keeps(d, d)
  {
    assert Holds(IdsMinted, d);
    EvolvesReflexive(d);
  }

  lemma KeptKeys(z: Db, d: Db)
    requires Keeps(z, d)
    ensures AllMinted(d)
  {
    MintedKeys(d);
  }

  lemma WorkFacts(d: Db)
    requires Inv(d)
    ensures AllMinted(d) && Keeps(d, d)
    ensures TasksOk(d.tasks, d.goals, d.plans) && PlansOk(d.plans, d.tasks) && StepsOk(d.steps, d.plans)
  {
    MintedKeys(d);
    assert Holds(TasksSound, d) && Holds(PlansAcyclic, d) && Holds(StepsSound, d);
  }

  lemma MintIds(z: Db, d: Db, next: nat)
    requires Keeps(z, d) && d.next <= next
    ensures Keeps(z, d.(next := next))
  {
    hide Inv, Evolves, TasksOk, PlansOk, StepsOk, ActionsOk, ObservationsOk, ObservedBacked, EvidenceOk,
         ClaimsOk, VerificationsOk, PassGrounded, ObligationsOk, RequiredOk, GoalsEvolve, TasksEvolve,
         PlansEvolve, StepsEvolve, ActionsEvolve, ObservationsEvolve, EvidenceEvolve, ClaimsEvolve,
         VerificationsEvolve, ObligationsEvolve, ConfirmationsEvolve;
    ClausesOf(d);
    EvolvesReflexive(d);
    TablesOf(d, d);
    var d' := d.(next := next);
    ClausesOf(d');
    TablesOf(d, d');
    EvolvesTransitive(z, d, d');
  }

  lemma GoalRow(goals: map<Id, Goal>, tasks: map<Id, Task>, plans: map<Id, Plan>, id: Id, g: Goal)
    requires TasksOk(tasks, goals, plans) && (id in goals ==> GoalStep(goals[id], g))
    ensures TasksOk(tasks, goals[id := g], plans) && GoalsEvolve(goals, goals[id := g])
  {
  }

  lemma PutGoal(z: Db, d: Db, id: Id, g: Goal)
    requires Keeps(z, d) && Usable(d, id, GoalK) && (id in d.goals ==> GoalStep(d.goals[id], g))
    ensures Keeps(z, d.(goals := d.goals[id := g]))
  {
    hide Inv, Evolves, TasksOk, PlansOk, StepsOk, ActionsOk, ObservationsOk, ObservedBacked, EvidenceOk, ClaimsOk,
         VerificationsOk, PassGrounded, ObligationsOk, RequiredOk, GoalsEvolve, TasksEvolve, PlansEvolve,
         StepsEvolve, ActionsEvolve, ObservationsEvolve, EvidenceEvolve, ClaimsEvolve, VerificationsEvolve,
         ObligationsEvolve, ConfirmationsEvolve;
    ClausesOf(d);
    EvolvesReflexive(d);
    TablesOf(d, d);
    GoalRow(d.goals, d.tasks, d.plans, id, g);
    var d' := d.(goals := d.goals[id := g]);
    ClausesOf(d');
    TablesOf(d, d');
    EvolvesTransitive(z, d, d');
  }

  lemma TaskRow(tasks: map<Id, Task>, goals: map<Id, Goal>, plans: map<Id, Plan>, obligations: map<Id, Obligation>,
                id: Id, t: Task)
    requires TasksOk(tasks, goals, plans) && PlansOk(plans, tasks) && ObligationsOk(obligations, tasks)
    requires (id in tasks ==> TaskStep(tasks[id], t)) && t.goalId in goals
    requires t.activePlan.Some? ==> t.activePlan.value in plans && plans[t.activePlan.value].taskId == id
    ensures TasksOk(tasks[id := t], goals, plans) && PlansOk(plans, tasks[id := t])
    ensures ObligationsOk(obligations, tasks[id := t]) && TasksEvolve(tasks, tasks[id := t])
  {
  }

  lemma PutTask(z: Db, d: Db, id: Id, t: Task)
    requires Keeps(z, d) && Usable(d, id, TaskK) && (id in d.tasks ==> TaskStep(d.tasks[id], t))
    requires t.goalId in d.goals
    requires t.activePlan.Some? ==> t.activePlan.value in d.plans && d.plans[t.activePlan.value].taskId == id
    ensures Keeps(z, d.(tasks := d.tasks[id := t]))
  {
    hide Inv, Evolves, TasksOk, PlansOk, ObligationsOk, TasksEvolve, StepsOk, ActionsOk, ObservationsOk,
         ObservedBacked, EvidenceOk, ClaimsOk, VerificationsOk, PassGrounded, RequiredOk, GoalsEvolve,
         PlansEvolve, StepsEvolve, ActionsEvolve, ObservationsEvolve, EvidenceEvolve, ClaimsEvolve,
         VerificationsEvolve, ObligationsEvolve, ConfirmationsEvolve;
    ClausesOf(d);
    EvolvesReflexive(d);
    TablesOf(d, d);
    TaskRow(d.tasks, d.goals, d.plans, d.obligations, id, t);
    var d' := d.(tasks := d.tasks[id := t]);
    ClausesOf(d');
    TablesOf(d, d');
    EvolvesTransitive(z, d, d');
  }

  lemma PlanRow(tasks: map<Id, Task>, goals: map<Id, Goal>, plans: map<Id, Plan>, steps: map<Id, Step>, id: Id, p: Plan)
    requires TasksOk(tasks, goals, plans) && PlansOk(plans, tasks) && StepsOk(steps, plans)
    requires (id in plans ==> PlanStep(plans[id], p)) && p.taskId in tasks && Acyclic(p.graph)
    ensures TasksOk(tasks, goals, plans[id := p]) && PlansOk(plans[id := p], tasks)
    ensures StepsOk(steps, plans[id := p]) && PlansEvolve(plans, plans[id := p])
  {
    hide Acyclic;
  }

  lemma PutPlan(z: Db, d: Db, id: Id, p: Plan)
    requires Keeps(z, d) && Usable(d, id, PlanK) && (id in d.plans ==> PlanStep(d.plans[id], p))
    requires p.taskId in d.tasks && Acyclic(p.graph)
    ensures Keeps(z, d.(plans := d.plans[id := p]))
  {
    hide Inv, Evolves, Acyclic, TasksOk, PlansOk, StepsOk, PlansEvolve, ActionsOk, ObservationsOk,
         ObservedBacked, EvidenceOk, ClaimsOk, VerificationsOk, PassGrounded, ObligationsOk, RequiredOk,
         GoalsEvolve, TasksEvolve, StepsEvolve, ActionsEvolve, ObservationsEvolve, EvidenceEvolve,
         ClaimsEvolve, VerificationsEvolve, ObligationsEvolve, ConfirmationsEvolve;
    ClausesOf(d);
    EvolvesReflexive(d);
    TablesOf(d, d);
    PlanRow(d.tasks, d.goals, d.plans, d.steps, id, p);
    var d' := d.(plans := d.plans[id := p]);
    ClausesOf(d');
    TablesOf(d, d');
    EvolvesTransitive(z, d, d');
  }

  lemma StepRow(steps: map<Id, Step>, plans: map<Id, Plan>, actions: map<Id, Action>, claims: map<ClaimKey, Claim>,
                verifications: map<Id, Verification>, id: Id, s: Step)
    requires StepsOk(steps, plans) && ActionsOk(actions, steps) && VerificationsOk(verifications, claims, steps)
    requires (id in steps ==> StepStep(steps[id], s)) && s.planId in plans
    ensures StepsOk(steps[id := s], plans) && ActionsOk(actions, steps[id := s])
    ensures VerificationsOk(verifications, claims, steps[id := s]) && StepsEvolve(steps, steps[id := s])
  {
  }

  lemma PutStep(z: Db, d: Db, id: Id, s: Step)
    requires Keeps(z, d) && Usable(d, id, StepK) && (id in d.steps ==> StepStep(d.steps[id], s))
    requires s.planId in d.plans
    ensures Keeps(z, d.(steps := d.steps[id := s]))
  {
    hide Inv, Evolves, StepsOk, ActionsOk, VerificationsOk, StepsEvolve, TasksOk, PlansOk, ObservationsOk,
         ObservedBacked, EvidenceOk, ClaimsOk, PassGrounded, ObligationsOk, RequiredOk, GoalsEvolve,
         TasksEvolve, PlansEvolve, ActionsEvolve, ObservationsEvolve, EvidenceEvolve, ClaimsEvolve,
         VerificationsEvolve, ObligationsEvolve, ConfirmationsEvolve;
    ClausesOf(d);
    EvolvesReflexive(d);
    TablesOf(d, d);
    StepRow(d.steps, d.plans, d.actions, d.claims, d.verifications, id, s);
    var d' := d.(steps := d.steps[id := s]);
    ClausesOf(d');
    TablesOf(d, d');
    EvolvesTransitive(z, d, d');
  }

  /** Observations and the steps of actions are permanent, so a grounded PASS stays grounded. */
  lemma PassStaysGrounded(verifications: map<Id, Verification>, actions: map<Id, Action>,
                          observations: map<Id, Observation>, actions': map<Id, Action>,
                          observations': map<Id, Observation>)
    requires PassGrounded(verifications, actions, observations)
    requires ActionsEvolve(actions, actions') && ObservationsEvolve(observations, observations')
    ensures PassGrounded(verifications, actions', observations')
  {
    forall v | v in verifications && verifications[v].result == VPass && verifications[v].stepId.Some? && !verifications[v].ungated
      ensures StepObserved(actions', observations', verifications[v].stepId.value)
    {
      var step := verifications[v].stepId.value;
      var o :| o in observations && observations[o].actionId in actions && actions[observations[o].actionId].stepId == step;
      assert o in observations' && observations'[o].actionId in actions'
        && actions'[observations'[o].actionId].stepId == step;
    }
  }

  lemma RetryLinksKept(actions: map<Id, Action>, id: Id, a: Action)
    requires forall i {:trigger RetryLink(actions, i)} :: i in actions ==> RetryLink(actions, i)
    requires id in actions ==> SameAttempt(actions[id], a)
    requires RetryLink(actions[id := a], id)
    ensures forall i {:trigger RetryLink(actions[id := a], i)} :: i in actions[id := a] ==> RetryLink(actions[id := a], i)
  {
    var after := actions[id := a];
    forall i | i in after ensures RetryLink(after, i) {
      if i != id { assert RetryLink(actions, i); }
    }
  }

  lemma ActionRow(actions: map<Id, Action>, steps: map<Id, Step>, observations: map<Id, Observation>, id: Id, a: Action)
    requires ActionsOk(actions, steps) && ObservationsOk(observations, actions) && ObservedBacked(actions, observations)
    requires (id in actions ==> ActionStep(actions[id], a)) && a.stepId in steps && RetryLink(actions[id := a], id)
    requires id !in actions ==> CapabilityFits(a, steps[a.stepId])
    requires a.status == AObserved ==> HasObservation(observations, id)
    ensures ActionsOk(actions[id := a], steps) && ObservationsOk(observations, actions[id := a])
    ensures ObservedBacked(actions[id := a], observations) && ActionsEvolve(actions, actions[id := a])
  {
    hide HasObservation;
    RetryLinksKept(actions, id, a);
  }

  lemma PutAction(z: Db, d: Db, id: Id, a: Action)
    requires Keeps(z, d) && Usable(d, id, ActionK) && (id in d.actions ==> ActionStep(d.actions[id], a))
    requires a.stepId in d.steps && RetryLink(d.actions[id := a], id)
    requires id !in d.actions ==> CapabilityFits(a, d.steps[a.stepId])
    requires a.status == AObserved ==> HasObservation(d.observations, id)
    ensures Keeps(z, d.(actions := d.actions[id := a]))
  {
    hide Inv, Evolves, ActionsOk, ObservationsOk, ObservedBacked, ActionsEvolve, TasksOk, PlansOk, StepsOk,
         EvidenceOk, ClaimsOk, VerificationsOk, PassGrounded, ObligationsOk, RequiredOk, GoalsEvolve,
         TasksEvolve, PlansEvolve, StepsEvolve, ObservationsEvolve, EvidenceEvolve, ClaimsEvolve,
         VerificationsEvolve, ObligationsEvolve, ConfirmationsEvolve;
    ClausesOf(d);
    EvolvesReflexive(d);
    TablesOf(d, d);
    ActionRow(d.actions, d.steps, d.observations, id, a);
    PassStaysGrounded(d.verifications, d.actions, d.observations, d.actions[id := a], d.observations);
    var d' := d.(actions := d.actions[id := a]);
    ClausesOf(d');
    TablesOf(d, d');
    EvolvesTransitive(z, d, d');
  }

  lemma ObservationRow(observations: map<Id, Observation>, actions: map<Id, Action>, evidence: map<Id, Evidence>,
                       id: Id, o: Observation)
    requires ObservationsOk(observations, actions) && ObservedBacked(actions, observations)
    requires EvidenceOk(evidence, observations) && id !in observations && o.actionId in actions
    ensures ObservationsOk(observations[id := o], actions) && ObservedBacked(actions, observations[id := o])
    ensures EvidenceOk(evidence, observations[id := o]) && ObservationsEvolve(observations, observations[id := o])
  {
    var after := observations[id := o];
    forall a | a in actions && actions[a].status == AObserved ensures HasObservation(after, a) {
      var i :| i in observations && observations[i].actionId == a;
      assert after[i].actionId == a;
    }
  }

  lemma PutObservation(z: Db, d: Db, id: Id, o: Observation)
    requires Keeps(z, d) && Usable(d, id, ObservationK) && id !in d.observations && o.actionId in d.actions
    ensures Keeps(z, d.(observations := d.observations[id := o]))
  {
    hide Inv, Evolves, ObservationsOk, ObservedBacked, EvidenceOk, ObservationsEvolve, TasksOk, PlansOk,
         StepsOk, ActionsOk, ClaimsOk, VerificationsOk, PassGrounded, ObligationsOk, RequiredOk, GoalsEvolve,
         TasksEvolve, PlansEvolve, StepsEvolve, ActionsEvolve, EvidenceEvolve, ClaimsEvolve,
         VerificationsEvolve, ObligationsEvolve, ConfirmationsEvolve;
    ClausesOf(d);
    EvolvesReflexive(d);
    TablesOf(d, d);
    ObservationRow(d.observations, d.actions, d.evidence, id, o);
    var observations := d.observations[id := o];
    PassStaysGrounded(d.verifications, d.actions, d.observations, d.actions, observations);
    var d' := d.(observations := d.observations[id := o]);
    ClausesOf(d');
    TablesOf(d, d');
    EvolvesTransitive(z, d, d');
  }

  lemma EvidenceRow(evidence: map<Id, Evidence>, observations: map<Id, Observation>, claims: map<ClaimKey, Claim>,
                    id: Id, e: Evidence)
    requires EvidenceOk(evidence, observations) && ClaimsOk(claims, evidence) && id !in evidence
    requires e.status != ConfirmedSource && (e.status == ConfirmedRuntime ==> e.origin.Some?)
    requires e.origin.Some? ==> e.origin.value in observations
    ensures EvidenceOk(evidence[id := e], observations) && ClaimsOk(claims, evidence[id := e])
    ensures EvidenceEvolve(evidence, evidence[id := e])
  {
    var after := evidence[id := e];
    forall k | k in claims ensures ClaimJustified(claims[k], after) {
      var c := claims[k];
      if c.confidence == High {
        var x :| x in c.basedOn && x in evidence && evidence[x].origin.Some?;
        assert after[x].origin.Some?;
      }
    }
  }

  lemma PutEvidence(z: Db, d: Db, id: Id, e: Evidence)
    requires Keeps(z, d) && Usable(d, id, EvidenceK) && id !in d.evidence
    requires e.status != ConfirmedSource && (e.status == ConfirmedRuntime ==> e.origin.Some?)
    requires e.origin.Some? ==> e.origin.value in d.observations
    ensures Keeps(z, d.(evidence := d.evidence[id := e]))
  {
    hide Inv, Evolves, EvidenceOk, ClaimsOk, EvidenceEvolve, TasksOk, PlansOk, StepsOk, ActionsOk,
         ObservationsOk, ObservedBacked, VerificationsOk, PassGrounded, ObligationsOk, RequiredOk, GoalsEvolve,
         TasksEvolve, PlansEvolve, StepsEvolve, ActionsEvolve, ObservationsEvolve, ClaimsEvolve,
         VerificationsEvolve, ObligationsEvolve, ConfirmationsEvolve;
    ClausesOf(d);
    EvolvesReflexive(d);
    TablesOf(d, d);
    EvidenceRow(d.evidence, d.observations, d.claims, id, e);
    var d' := d.(evidence := d.evidence[id := e]);
    ClausesOf(d');
    TablesOf(d, d');
    EvolvesTransitive(z, d, d');
  }

  lemma ClaimRow(claims: map<ClaimKey, Claim>, evidence: map<Id, Evidence>, verifications: map<Id, Verification>,
                 steps: map<Id, Step>, k: ClaimKey, c: Claim)
    requires ClaimsOk(claims, evidence) && VerificationsOk(verifications, claims, steps)
    requires k !in claims && k.version >= 1 && (k.version > 1 ==> ClaimKey(k.id, k.version - 1) in claims)
    requires ClaimJustified(c, evidence)
    ensures ClaimsOk(claims[k := c], evidence) && VerificationsOk(verifications, claims[k := c], steps)
    ensures ClaimsEvolve(claims, claims[k := c])
  {
    hide ClaimJustified;
    var after := claims[k := c];
    forall j | j in after ensures HasPredecessor(after, j) {
      if j != k { assert HasPredecessor(claims, j); }
    }
  }

  lemma PutClaim(z: Db, d: Db, k: ClaimKey, c: Claim)
    requires Keeps(z, d) && Usable(d, k.id, ClaimK) && k !in d.claims && k.version >= 1
    requires k.version > 1 ==> ClaimKey(k.id, k.version - 1) in d.claims
    requires ClaimJustified(c, d.evidence)
    ensures Keeps(z, d.(claims := d.claims[k := c]))
  {
    hide Inv, Evolves, ClaimJustified, ClaimsOk, VerificationsOk, ClaimsEvolve, TasksOk, PlansOk, StepsOk,
         ActionsOk, ObservationsOk, ObservedBacked, EvidenceOk, PassGrounded, ObligationsOk, RequiredOk,
         GoalsEvolve, TasksEvolve, PlansEvolve, StepsEvolve, ActionsEvolve, ObservationsEvolve, EvidenceEvolve,
         VerificationsEvolve, ObligationsEvolve, ConfirmationsEvolve;
    ClausesOf(d);
    EvolvesReflexive(d);
    TablesOf(d, d);
    ClaimRow(d.claims, d.evidence, d.verifications, d.steps, k, c);
    var d' := d.(claims := d.claims[k := c]);
    ClausesOf(d');
    TablesOf(d, d');
    EvolvesTransitive(z, d, d');
  }

  lemma VerificationRow(verifications: map<Id, Verification>, claims: map<ClaimKey, Claim>, steps: map<Id, Step>,
                        required: set<(Id, Id)>, id: Id, v: Verification)
    requires VerificationsOk(verifications, claims, steps) && RequiredOk(required, verifications)
    requires id in verifications ==> VerificationStep(verifications[id], v)
    requires ClaimKey(v.verifies, 1) in claims && (v.stepId.Some? ==> v.stepId.value in steps)
    ensures VerificationsOk(verifications[id := v], claims, steps) && RequiredOk(required, verifications[id := v])
    ensures VerificationsEvolve(verifications, verifications[id := v])
  {
  }

  lemma GroundedRow(verifications: map<Id, Verification>, actions: map<Id, Action>, observations: map<Id, Observation>,
                    id: Id, v: Verification)
    requires PassGrounded(verifications, actions, observations)
    requires v.result == VPass && v.stepId.Some? && !v.ungated ==> StepObserved(actions, observations, v.stepId.value)
    ensures PassGrounded(verifications[id := v], actions, observations)
  {
    hide StepObserved;
  }

  lemma PutVerification(z: Db, d: Db, id: Id, v: Verification)
    requires Keeps(z, d) && Usable(d, id, VerificationK)
    requires id in d.verifications ==> VerificationStep(d.verifications[id], v)
    requires ClaimKey(v.verifies, 1) in d.claims && (v.stepId.Some? ==> v.stepId.value in d.steps)
    requires v.result == VPass && v.stepId.Some? && !v.ungated ==> StepObserved(d.actions, d.observations, v.stepId.value)
    ensures Keeps(z, d.(verifications := d.verifications[id := v]))
  {
    hide Inv, Evolves, PassGrounded, VerificationsOk, RequiredOk, VerificationsEvolve, TasksOk, PlansOk, StepsOk, ActionsOk,
         ObservationsOk, ObservedBacked, EvidenceOk, ClaimsOk, ObligationsOk, GoalsEvolve, TasksEvolve,
         PlansEvolve, StepsEvolve, ActionsEvolve, ObservationsEvolve, EvidenceEvolve, ClaimsEvolve,
         ObligationsEvolve, ConfirmationsEvolve;
    ClausesOf(d);
    EvolvesReflexive(d);
    TablesOf(d, d);
    VerificationRow(d.verifications, d.claims, d.steps, d.required, id, v);
    GroundedRow(d.verifications, d.actions, d.observations, id, v);
    var d' := d.(verifications := d.verifications[id := v]);
    ClausesOf(d');
    TablesOf(d, d');
    EvolvesTransitive(z, d, d');
  }

  lemma PutRequired(z: Db, d: Db, obj: Id, ver: Id)
    requires Keeps(z, d) && ver in d.verifications
    ensures Keeps(z, d.(required := d.required + {(obj, ver)}))
  {
    hide Inv, Evolves, TasksOk, PlansOk, StepsOk, ActionsOk, ObservationsOk, ObservedBacked, EvidenceOk,
         ClaimsOk, VerificationsOk, PassGrounded, ObligationsOk, GoalsEvolve, TasksEvolve, PlansEvolve,
         StepsEvolve, ActionsEvolve, ObservationsEvolve, EvidenceEvolve, ClaimsEvolve, VerificationsEvolve,
         ObligationsEvolve, ConfirmationsEvolve;
    ClausesOf(d);
    EvolvesReflexive(d);
    TablesOf(d, d);
    var d' := d.(required := d.required + {(obj, ver)});
    ClausesOf(d');
    TablesOf(d, d');
    EvolvesTransitive(z, d, d');
  }

  lemma PutObligations(z: Db, d: Db, m: map<Id, Obligation>)
    requires Keeps(z, d) && Minted(m.Keys, ObligationK, d.next) && ObligationsOk(m, d.tasks) && ObligationsEvolve(d.obligations, m)
    ensures Keeps(z, d.(obligations := m))
  {
    hide Inv, Evolves, TasksOk, PlansOk, StepsOk, ActionsOk, ObservationsOk, ObservedBacked, EvidenceOk,
         ClaimsOk, VerificationsOk, PassGrounded, ObligationsOk, RequiredOk, GoalsEvolve, TasksEvolve,
         PlansEvolve, StepsEvolve, ActionsEvolve, ObservationsEvolve, EvidenceEvolve, ClaimsEvolve,
         VerificationsEvolve, ObligationsEvolve, ConfirmationsEvolve;
    ClausesOf(d);
    EvolvesReflexive(d);
    TablesOf(d, d);
    var d' := d.(obligations := m);
    ClausesOf(d');
    TablesOf(d, d');
    EvolvesTransitive(z, d, d');
  }

  lemma ObligationRow(obligations: map<Id, Obligation>, tasks: map<Id, Task>, id: Id, o: Obligation)
    requires ObligationsOk(obligations, tasks) && (id in obligations ==> ObligationStep(obligations[id], o))
    requires o.owner == Uor || (o.owner.Owned? && o.owner.id in tasks)
    ensures ObligationsOk(obligations[id := o], tasks) && ObligationsEvolve(obligations, obligations[id := o])
  {
  }

  lemma PutObligation(z: Db, d: Db, id: Id, o: Obligation)
    requires Keeps(z, d) && Usable(d, id, ObligationK) && (id in d.obligations ==> ObligationStep(d.obligations[id], o))
    requires ValidOwner(d, o.owner)
    ensures Keeps(z, d.(obligations := d.obligations[id := o]))
  {
    hide Inv, Evolves, ObligationsOk, ObligationsEvolve, TasksOk, PlansOk, StepsOk, ActionsOk, ObservationsOk,
         ObservedBacked, EvidenceOk, ClaimsOk, VerificationsOk, PassGrounded, RequiredOk, GoalsEvolve,
         TasksEvolve, PlansEvolve, StepsEvolve, ActionsEvolve, ObservationsEvolve, EvidenceEvolve,
         ClaimsEvolve, VerificationsEvolve, ConfirmationsEvolve;
    ClausesOf(d);
    EvolvesReflexive(d);
    TablesOf(d, d);
    ObligationRow(d.obligations, d.tasks, id, o);
    var d' := d.(obligations := d.obligations[id := o]);
    ClausesOf(d');
    TablesOf(d, d');
    EvolvesTransitive(z, d, d');
  }

  lemma ConfirmationRow(confirmations: map<Id, Confirmation>, id: Id, c: Confirmation)
    requires id in confirmations ==> ConfirmationStep(confirmations[id], c)
    ensures ConfirmationsEvolve(confirmations, confirmations[id := c])
  {
  }

  lemma PutConfirmation(z: Db, d: Db, id: Id, c: Confirmation)
    requires Keeps(z, d) && Usable(d, id, ConfirmationK)
    requires id in d.confirmations ==> ConfirmationStep(d.confirmations[id], c)
    ensures Keeps(z, d.(confirmations := d.confirmations[id := c]))
  {
    hide Inv, Evolves, ConfirmationsEvolve, TasksOk, PlansOk, StepsOk, ActionsOk, ObservationsOk,
         ObservedBacked, EvidenceOk, ClaimsOk, VerificationsOk, PassGrounded, ObligationsOk, RequiredOk,
         GoalsEvolve, TasksEvolve, PlansEvolve, StepsEvolve, ActionsEvolve, ObservationsEvolve, EvidenceEvolve,
         ClaimsEvolve, VerificationsEvolve, ObligationsEvolve;
    ClausesOf(d);
    EvolvesReflexive(d);
    TablesOf(d, d);
    ConfirmationRow(d.confirmations, id, c);
    var d' := d.(confirmations := d.confirmations[id := c]);
    ClausesOf(d');
    TablesOf(d, d');
    EvolvesTransitive(z, d, d');
  }
}
