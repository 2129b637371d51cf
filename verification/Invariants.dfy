/** What every committed state satisfies (Inv), what one commit may change (Evolves), and the
    stronger facts of runs without repair (Strict, StrictEvolves). Each clause names only the
    tables it depends on. */
module Invariants {
  import opened Types
  import opened Graphs
  import opened Obligations

  // ------------------------------------------------------------- every reachable state

  /** Ids of one kind, all minted. */
  predicate Minted(s: set<Id>, k: Kind, next: nat) { forall i :: i in s ==> i.kind == k && i.n < next }

  predicate AllMinted(d: Db) {
    && Minted(d.goals.Keys, GoalK, d.next)
    && Minted(d.tasks.Keys, TaskK, d.next)
    && Minted(d.plans.Keys, PlanK, d.next)
    && Minted(d.steps.Keys, StepK, d.next)
    && Minted(d.actions.Keys, ActionK, d.next)
    && Minted(d.observations.Keys, ObservationK, d.next)
    && Minted(d.evidence.Keys, EvidenceK, d.next)
    && (forall k :: k in d.claims ==> k.id.kind == ClaimK && k.id.n < d.next)
    && Minted(d.verifications.Keys, VerificationK, d.next)
    && Minted(d.obligations.Keys, ObligationK, d.next)
    && Minted(d.confirmations.Keys, ConfirmationK, d.next)
  }

  predicate TasksOk(tasks: map<Id, Task>, goals: map<Id, Goal>, plans: map<Id, Plan>) {
    forall t :: t in tasks ==>
         && tasks[t].goalId in goals
         && (tasks[t].activePlan.Some? ==>
               tasks[t].activePlan.value in plans && plans[tasks[t].activePlan.value].taskId == t)
  }

  ghost predicate PlansOk(plans: map<Id, Plan>, tasks: map<Id, Task>) {
    forall p :: p in plans ==> plans[p].taskId in tasks && Acyclic(plans[p].graph)
  }

  predicate StepsOk(steps: map<Id, Step>, plans: map<Id, Plan>) {
    forall s :: s in steps ==> steps[s].planId in plans
  }

  /** A retry is younger than the attempt it retries and repeats its step, capability and arguments. */
  predicate RetryLink(actions: map<Id, Action>, a: Id)
    requires a in actions
  {
    actions[a].retryOf.Some? ==>
      var b := actions[a].retryOf.value;
      && b in actions && b.n < a.n
      && actions[b].stepId == actions[a].stepId
      && actions[b].capability == actions[a].capability
      && actions[b].arguments == actions[a].arguments
  }

  /** Capability correspondence: a step that declares a capability only has actions of that capability. */
  predicate CapabilityFits(a: Action, s: Step) { s.capability == "" || a.capability == s.capability }

  predicate ActionsOk(actions: map<Id, Action>, steps: map<Id, Step>) {
    && (forall a :: a in actions ==>
          actions[a].stepId in steps && CapabilityFits(actions[a], steps[actions[a].stepId]))
    && forall a {:trigger RetryLink(actions, a)} :: a in actions ==> RetryLink(actions, a)
  }

  predicate ObservationsOk(observations: map<Id, Observation>, actions: map<Id, Action>) {
    forall o :: o in observations ==> observations[o].actionId in actions
  }

  ghost predicate HasObservation(observations: map<Id, Observation>, action: Id) {
    exists o :: o in observations && observations[o].actionId == action
  }

  /** OBSERVED is never claimed without an Observation. */
  ghost predicate ObservedBacked(actions: map<Id, Action>, observations: map<Id, Observation>) {
    forall a :: a in actions && actions[a].status == AObserved ==> HasObservation(observations, a)
  }

  predicate EvidenceOk(evidence: map<Id, Evidence>, observations: map<Id, Observation>) {
    forall e :: e in evidence ==>
         && evidence[e].status != ConfirmedSource
         && (evidence[e].status == ConfirmedRuntime ==> evidence[e].origin.Some?)
         && (evidence[e].origin.Some? ==> evidence[e].origin.value in observations)
  }

  ghost predicate ClaimJustified(c: Claim, evidence: map<Id, Evidence>) {
    && (forall e :: e in c.basedOn ==> e in evidence)
    && (c.confidence == High ==> exists e :: e in c.basedOn && e in evidence && evidence[e].origin.Some?)
  }

  predicate HasPredecessor(claims: map<ClaimKey, Claim>, k: ClaimKey) {
    k.version > 1 ==> ClaimKey(k.id, k.version - 1) in claims
  }

  /** Versions start at 1 and leave no gap. */
  ghost predicate ClaimsOk(claims: map<ClaimKey, Claim>, evidence: map<Id, Evidence>) {
    && (forall k :: k in claims ==>
          k.version >= 1 && ClaimJustified(claims[k], evidence))
    && forall k {:trigger HasPredecessor(claims, k)} :: k in claims ==> HasPredecessor(claims, k)
  }

  predicate VerificationsOk(verifications: map<Id, Verification>, claims: map<ClaimKey, Claim>,
                            steps: map<Id, Step>) {
    forall v :: v in verifications ==>
         && ClaimKey(verifications[v].verifies, 1) in claims
         && (verifications[v].stepId.Some? ==> verifications[v].stepId.value in steps)
  }

  /** Some action of the step has an Observation. */
  ghost predicate StepObserved(actions: map<Id, Action>, observations: map<Id, Observation>, step: Id) {
    exists o :: o in observations && observations[o].actionId in actions
      && actions[observations[o].actionId].stepId == step
  }

  /** A step-bound PASS that was never decided past the gate rests on an Observation of an action of that step. */
  ghost predicate PassGrounded(verifications: map<Id, Verification>, actions: map<Id, Action>,
                               observations: map<Id, Observation>) {
    forall v :: v in verifications && verifications[v].result == VPass && verifications[v].stepId.Some? && !verifications[v].ungated ==>
      StepObserved(actions, observations, verifications[v].stepId.value)
  }

  predicate ObligationsOk(obligations: map<Id, Obligation>, tasks: map<Id, Task>) {
    forall o :: o in obligations ==>
         obligations[o].owner == Uor || (obligations[o].owner.Owned? && obligations[o].owner.id in tasks)
  }

  predicate RequiredOk(required: set<(Id, Id)>, verifications: map<Id, Verification>) {
    forall b :: b in required ==> b.1 in verifications
  }

  datatype Clause =
    | IdsMinted | TasksSound | PlansAcyclic | StepsSound | ActionsSound | ObservationsSound | ObservedIsBacked
    | EvidenceSound | ClaimsSound | VerificationsSound | PassIsGrounded | ObligationsSound | RequiredSound

  ghost predicate Holds(c: Clause, d: Db) {
    match c
    case IdsMinted => AllMinted(d)
    case TasksSound => TasksOk(d.tasks, d.goals, d.plans)
    case PlansAcyclic => PlansOk(d.plans, d.tasks)
    case StepsSound => StepsOk(d.steps, d.plans)
    case ActionsSound => ActionsOk(d.actions, d.steps)
    case ObservationsSound => ObservationsOk(d.observations, d.actions)
    case ObservedIsBacked => ObservedBacked(d.actions, d.observations)
    case EvidenceSound => EvidenceOk(d.evidence, d.observations)
    case ClaimsSound => ClaimsOk(d.claims, d.evidence)
    case VerificationsSound => VerificationsOk(d.verifications, d.claims, d.steps)
    case PassIsGrounded => PassGrounded(d.verifications, d.actions, d.observations)
    case ObligationsSound => ObligationsOk(d.obligations, d.tasks)
    case RequiredSound => RequiredOk(d.required, d.verifications)
  }

  ghost predicate Inv(d: Db) { forall c: Clause :: Holds(c, d) }

  /** The clauses side by side. */
  ghost predicate AllClauses(d: Db) {
    && AllMinted(d)
    && TasksOk(d.tasks, d.goals, d.plans)
    && PlansOk(d.plans, d.tasks)
    && StepsOk(d.steps, d.plans)
    && ActionsOk(d.actions, d.steps)
    && ObservationsOk(d.observations, d.actions)
    && ObservedBacked(d.actions, d.observations)
    && EvidenceOk(d.evidence, d.observations)
    && ClaimsOk(d.claims, d.evidence)
    && VerificationsOk(d.verifications, d.claims, d.steps)
    && PassGrounded(d.verifications, d.actions, d.observations)
    && ObligationsOk(d.obligations, d.tasks)
    && RequiredOk(d.required, d.verifications)
  }

  lemma ClausesOf(d: Db)
    ensures Inv(d) <==> AllClauses(d)
  {
    hide AllMinted, TasksOk, PlansOk, StepsOk, ActionsOk, ObservationsOk, ObservedBacked, EvidenceOk, ClaimsOk,
         VerificationsOk, PassGrounded, ObligationsOk, RequiredOk;
    if Inv(d) {
      assert Holds(IdsMinted, d) && Holds(TasksSound, d) && Holds(PlansAcyclic, d) && Holds(StepsSound, d);
      assert Holds(ActionsSound, d) && Holds(ObservationsSound, d) && Holds(ObservedIsBacked, d);
      assert Holds(EvidenceSound, d) && Holds(ClaimsSound, d) && Holds(VerificationsSound, d);
      assert Holds(PassIsGrounded, d) && Holds(ObligationsSound, d) && Holds(RequiredSound, d);
    }
  }

  // --------------------------------------------------------- what a commit may change

  // A row either keeps every tracked field or raises its revision; references never change.
  predicate GoalStep(x: Goal, y: Goal) { x == y || x.revision < y.revision }
  predicate TaskStep(x: Task, y: Task) { x.goalId == y.goalId && (x == y || x.revision < y.revision) }
  predicate PlanStep(x: Plan, y: Plan) { x.taskId == y.taskId && (x == y || x.revision < y.revision) }
  predicate StepStep(x: Step, y: Step) {
    // depends_on alone moves without a revision (v5/work.py:305)
    && x.planId == y.planId && x.capability == y.capability
    && (x.(dependsOn := y.dependsOn) == y || x.revision < y.revision)
  }
  predicate SameAttempt(x: Action, y: Action) {
    && x.stepId == y.stepId && x.capability == y.capability && x.arguments == y.arguments
    && x.idempotency == y.idempotency && x.retryOf == y.retryOf
  }
  predicate ActionStep(x: Action, y: Action) { SameAttempt(x, y) && (x == y || x.revision < y.revision) }
  predicate ObligationStep(x: Obligation, y: Obligation) {
    && x.origin == y.origin && x.history <= y.history
    && (x == y || x.revision < y.revision)
  }
  predicate VerificationStep(x: Verification, y: Verification) {
    x.(result := y.result, ungated := y.ungated) == y && (x.ungated ==> y.ungated)
  }
  predicate ConfirmationStep(x: Confirmation, y: Confirmation) {
    x == y || (x.confirmedAt.None? && x.(confirmedAt := y.confirmedAt) == y)
  }

  predicate GoalsEvolve(a: map<Id, Goal>, b: map<Id, Goal>) { forall i :: i in a ==> i in b && GoalStep(a[i], b[i]) }
  predicate TasksEvolve(a: map<Id, Task>, b: map<Id, Task>) { forall i :: i in a ==> i in b && TaskStep(a[i], b[i]) }
  predicate PlansEvolve(a: map<Id, Plan>, b: map<Id, Plan>) { forall i :: i in a ==> i in b && PlanStep(a[i], b[i]) }
  predicate StepsEvolve(a: map<Id, Step>, b: map<Id, Step>) { forall i :: i in a ==> i in b && StepStep(a[i], b[i]) }
  predicate ActionsEvolve(a: map<Id, Action>, b: map<Id, Action>) {
    forall i :: i in a ==> i in b && ActionStep(a[i], b[i])
  }
  predicate ObservationsEvolve(a: map<Id, Observation>, b: map<Id, Observation>) {
    forall i :: i in a ==> i in b && a[i] == b[i]
  }
  predicate EvidenceEvolve(a: map<Id, Evidence>, b: map<Id, Evidence>) {
    forall i :: i in a ==> i in b && a[i] == b[i]
  }
  predicate ClaimsEvolve(a: map<ClaimKey, Claim>, b: map<ClaimKey, Claim>) {
    forall k :: k in a ==> k in b && a[k] == b[k]
  }
  predicate VerificationsEvolve(a: map<Id, Verification>, b: map<Id, Verification>) {
    forall i :: i in a ==> i in b && VerificationStep(a[i], b[i])
  }
  predicate ObligationsEvolve(a: map<Id, Obligation>, b: map<Id, Obligation>) {
    forall i :: i in a ==> i in b && ObligationStep(a[i], b[i])
  }
  predicate ConfirmationsEvolve(a: map<Id, Confirmation>, b: map<Id, Confirmation>) {
    forall i :: i in a ==> i in b && ConfirmationStep(a[i], b[i])
  }

  datatype Table =
    | Goals | Tasks | Plans | Steps | Actions | Observations | EvidenceTable | Claims | Verifications | Required
    | ObligationTable | Confirmations

  predicate TableEvolves(t: Table, a: Db, b: Db) {
    match t
    case Goals => GoalsEvolve(a.goals, b.goals)
    case Tasks => TasksEvolve(a.tasks, b.tasks)
    case Plans => PlansEvolve(a.plans, b.plans)
    case Steps => StepsEvolve(a.steps, b.steps)
    case Actions => ActionsEvolve(a.actions, b.actions)
    case Observations => ObservationsEvolve(a.observations, b.observations)
    case EvidenceTable => EvidenceEvolve(a.evidence, b.evidence)
    case Claims => ClaimsEvolve(a.claims, b.claims)
    case Verifications => VerificationsEvolve(a.verifications, b.verifications)
    case Required => a.required <= b.required
    case ObligationTable => ObligationsEvolve(a.obligations, b.obligations)
    case Confirmations => ConfirmationsEvolve(a.confirmations, b.confirmations)
  }

  /** Nothing disappears, references and history are permanent, revisions only grow and
      grow strictly whenever a tracked field changes. */
  ghost predicate Evolves(a: Db, b: Db) { a.next <= b.next && forall t: Table :: TableEvolves(t, a, b) }

  predicate AllTables(a: Db, b: Db) {
    && a.next <= b.next
    && GoalsEvolve(a.goals, b.goals)
    && TasksEvolve(a.tasks, b.tasks)
    && PlansEvolve(a.plans, b.plans)
    && StepsEvolve(a.steps, b.steps)
    && ActionsEvolve(a.actions, b.actions)
    && ObservationsEvolve(a.observations, b.observations)
    && EvidenceEvolve(a.evidence, b.evidence)
    && ClaimsEvolve(a.claims, b.claims)
    && VerificationsEvolve(a.verifications, b.verifications)
    && a.required <= b.required
    && ObligationsEvolve(a.obligations, b.obligations)
    && ConfirmationsEvolve(a.confirmations, b.confirmations)
  }

  lemma TablesOf(a: Db, b: Db)
    ensures Evolves(a, b) <==> AllTables(a, b)
  {
    hide GoalsEvolve, TasksEvolve, PlansEvolve, StepsEvolve, ActionsEvolve, ObservationsEvolve, EvidenceEvolve,
         ClaimsEvolve, VerificationsEvolve, ObligationsEvolve, ConfirmationsEvolve;
    if Evolves(a, b) {
      assert TableEvolves(Goals, a, b) && TableEvolves(Tasks, a, b) && TableEvolves(Plans, a, b);
      assert TableEvolves(Steps, a, b) && TableEvolves(Actions, a, b) && TableEvolves(Observations, a, b);
      assert TableEvolves(EvidenceTable, a, b) && TableEvolves(Claims, a, b) && TableEvolves(Verifications, a, b);
      assert TableEvolves(Required, a, b) && TableEvolves(ObligationTable, a, b) && TableEvolves(Confirmations, a, b);
    }
  }

  lemma EvolvesReflexive(d: Db)
    ensures Evolves(d, d)
  {
  }

  lemma StepsEvolveTransitive(a: map<Id, Step>, b: map<Id, Step>, c: map<Id, Step>)
    requires StepsEvolve(a, b) && StepsEvolve(b, c)
    ensures StepsEvolve(a, c)
  {
    forall i | i in a ensures i in c && StepStep(a[i], c[i]) {
      assert StepStep(a[i], b[i]) && StepStep(b[i], c[i]);
    }
  }

  lemma ActionsEvolveTransitive(a: map<Id, Action>, b: map<Id, Action>, c: map<Id, Action>)
    requires ActionsEvolve(a, b) && ActionsEvolve(b, c)
    ensures ActionsEvolve(a, c)
  {
    forall i | i in a ensures i in c && ActionStep(a[i], c[i]) {
      assert ActionStep(a[i], b[i]) && ActionStep(b[i], c[i]);
    }
  }

  lemma ObligationsEvolveTransitive(a: map<Id, Obligation>, b: map<Id, Obligation>, c: map<Id, Obligation>)
    requires ObligationsEvolve(a, b) && ObligationsEvolve(b, c)
    ensures ObligationsEvolve(a, c)
  {
    forall i | i in a ensures i in c && ObligationStep(a[i], c[i]) {
      assert ObligationStep(a[i], b[i]) && ObligationStep(b[i], c[i]);
    }
  }

  lemma EvolvesTransitive(a: Db, b: Db, c: Db)
    requires Evolves(a, b) && Evolves(b, c)
    ensures Evolves(a, c)
  {
    forall t: Table ensures TableEvolves(t, a, c) {
      assert TableEvolves(t, a, b) && TableEvolves(t, b, c);
      match t
      case Steps => StepsEvolveTransitive(a.steps, b.steps, c.steps);
      case Actions => ActionsEvolveTransitive(a.actions, b.actions, c.actions);
      case ObligationTable => ObligationsEvolveTransitive(a.obligations, b.obligations, c.obligations);
      case _ =>
    }
  }

  // ------------------------------------------------------------- runs without repair

  /** Observations exist exactly for OBSERVED actions, one each. */
  predicate ObservationsExact(actions: map<Id, Action>, observations: map<Id, Observation>) {
    && (forall o :: o in observations ==>
          observations[o].actionId in actions && actions[observations[o].actionId].status == AObserved)
    && (forall o, p :: o in observations && p in observations && observations[o].actionId == observations[p].actionId
          ==> o == p)
  }

  /** step.depends_on is the step's entry in its plan's committed graph, and the graph has no other entry. */
  predicate GraphMirrored(plans: map<Id, Plan>, steps: map<Id, Step>) {
    && (forall s :: s in steps ==>
          && steps[s].planId in plans
          && s in plans[steps[s].planId].graph
          && plans[steps[s].planId].graph[s] == steps[s].dependsOn)
    && (forall p, s :: p in plans && s in plans[p].graph ==> s in steps && steps[s].planId == p)
  }

  /** Some claim version cites evidence from an Observation of the action. */
  ghost predicate EffectEstablished(claims: map<ClaimKey, Claim>, evidence: map<Id, Evidence>,
                                    observations: map<Id, Observation>, action: Id) {
    exists k, e :: k in claims && e in claims[k].basedOn && EvidenceOf(evidence, observations, e, action)
  }

  ghost predicate ResolutionsGrounded(obligations: map<Id, Obligation>, claims: map<ClaimKey, Claim>,
                                      evidence: map<Id, Evidence>, observations: map<Id, Observation>) {
    forall o :: o in obligations && obligations[o].disposition == Resolved ==>
      EffectEstablished(claims, evidence, observations, obligations[o].origin)
  }

  /** plan -> the different plan that superseded it. */
  function Links(plans: map<Id, Plan>): Graph {
    map p | p in plans :: if plans[p].supersededBy.Some? && plans[p].supersededBy.value != p
                          then {plans[p].supersededBy.value} else {}
  }

  ghost predicate SupersessionOk(plans: map<Id, Plan>) {
    && (forall p :: p in plans && plans[p].supersededBy.Some? ==> plans[p].status == PSuperseded)
    && Acyclic(Links(plans))
  }

  ghost predicate Strict(d: Db) {
    && ObservationsExact(d.actions, d.observations)
    && GraphMirrored(d.plans, d.steps)
    && ResolutionsGrounded(d.obligations, d.claims, d.evidence, d.observations)
    && SupersessionOk(d.plans)
  }

  // Terminal statuses are absorbing; a terminal plan may still be marked SUPERSEDED; a frozen action stays frozen.
  predicate GoalForward(x: Goal, y: Goal) { GoalTerminal(x.status) ==> y.status == x.status }
  predicate TaskForward(x: Task, y: Task) {
    && (TaskTerminal(x.status) ==> y.status == x.status && y.activePlan == x.activePlan)
    && (x.activePlan.Some? ==> y.activePlan.Some? || TaskTerminal(y.status))
    && x.maxAttempts == y.maxAttempts
    && (y.attemptsUsed == x.attemptsUsed || x.attemptsUsed < y.attemptsUsed <= x.maxAttempts)
  }
  predicate PlanForward(x: Plan, y: Plan) { PlanTerminal(x.status) ==> y.status == x.status || y.status == PSuperseded }
  predicate StepForward(x: Step, y: Step) { StepTerminal(x.status) ==> y.status == x.status }
  predicate ActionForward(x: Action, y: Action) {
    && (x.integrity == Frozen ==> y.integrity == Frozen)
    && match x.status
       case APending => true
       case AExecuting => y.status != APending
       case s => y.status == s
  }
  predicate ObligationForward(x: Obligation, y: Obligation) { x.disposition != Open ==> y == x }

  predicate PointerMoved(x: Task, y: Task) {
    x.activePlan.Some? && y.activePlan.Some? && x.activePlan != y.activePlan
  }

  /** When the active plan changes to another plan, the old one is SUPERSEDED, CANCELLED or FAILED. */
  predicate LeftPlansDead(a: map<Id, Task>, b: map<Id, Task>, plans: map<Id, Plan>) {
    forall t :: t in a && t in b && PointerMoved(a[t], b[t]) ==>
      a[t].activePlan.value in plans && Displaceable(plans[a[t].activePlan.value].status)
  }

  /** A terminal plan that is not active never becomes active. */
  predicate DeadPlansStayLeft(a: map<Id, Task>, plans: map<Id, Plan>, b: map<Id, Task>) {
    forall t, p :: t in a && t in b && p in plans && b[t].activePlan == Some(p) && a[t].activePlan != Some(p) ==>
      !PlanTerminal(plans[p].status)
  }

  predicate PointerForward(a: Db, b: Db) {
    LeftPlansDead(a.tasks, b.tasks, b.plans) && DeadPlansStayLeft(a.tasks, a.plans, b.tasks)
  }

  predicate RetryReaching(d: Db, t: Id, a: Id) {
    a in d.actions && d.actions[a].retryOf.Some? && OwningTask(d, d.actions[a]) == Some(t)
  }

  /** The retry actions that reach a task. */
  function Retries(d: Db, t: Id): set<Id> { set a | a in d.actions && RetryReaching(d, t, a) }

  predicate RetriesAccounted(a: Db, b: Db) {
    forall t :: t in a.tasks && t in b.tasks ==>
      b.tasks[t].attemptsUsed - a.tasks[t].attemptsUsed == |Retries(b, t)| - |Retries(a, t)|
  }

  predicate GoalsForward(a: map<Id, Goal>, b: map<Id, Goal>) {
    forall i :: i in a && i in b ==> GoalForward(a[i], b[i])
  }
  predicate TasksForward(a: map<Id, Task>, b: map<Id, Task>) {
    forall i :: i in a && i in b ==> TaskForward(a[i], b[i])
  }
  predicate PlansForward(a: map<Id, Plan>, b: map<Id, Plan>) {
    forall i :: i in a && i in b ==> PlanForward(a[i], b[i])
  }
  predicate StepsForward(a: map<Id, Step>, b: map<Id, Step>) {
    forall i :: i in a && i in b ==> StepForward(a[i], b[i])
  }
  predicate ActionsForward(a: map<Id, Action>, b: map<Id, Action>) {
    forall i :: i in a && i in b ==> ActionForward(a[i], b[i])
  }
  predicate ObligationsForward(a: map<Id, Obligation>, b: map<Id, Obligation>) {
    forall i :: i in a && i in b ==> ObligationForward(a[i], b[i])
  }

  predicate RowsForward(a: Db, b: Db) {
    && GoalsForward(a.goals, b.goals)
    && TasksForward(a.tasks, b.tasks)
    && PlansForward(a.plans, b.plans)
    && StepsForward(a.steps, b.steps)
    && ActionsForward(a.actions, b.actions)
    && ObligationsForward(a.obligations, b.obligations)
  }

  predicate StrictEvolves(a: Db, b: Db) { RowsForward(a, b) && PointerForward(a, b) && RetriesAccounted(a, b) }

  lemma TasksForwardTransitive(a: map<Id, Task>, b: map<Id, Task>, c: map<Id, Task>)
    requires TasksEvolve(a, b) && TasksForward(a, b) && TasksForward(b, c)
    ensures TasksForward(a, c)
  {
    forall i | i in a && i in c ensures TaskForward(a[i], c[i]) {
      assert TaskForward(a[i], b[i]) && TaskForward(b[i], c[i]);
    }
  }

  lemma ActionsForwardTransitive(a: map<Id, Action>, b: map<Id, Action>, c: map<Id, Action>)
    requires ActionsEvolve(a, b) && ActionsForward(a, b) && ActionsForward(b, c)
    ensures ActionsForward(a, c)
  {
    forall i | i in a && i in c ensures ActionForward(a[i], c[i]) {
      assert ActionForward(a[i], b[i]) && ActionForward(b[i], c[i]);
    }
  }

  lemma RowsForwardTransitive(a: Db, b: Db, c: Db)
    requires Evolves(a, b) && RowsForward(a, b) && RowsForward(b, c)
    ensures RowsForward(a, c)
  {
    TablesOf(a, b);
    TasksForwardTransitive(a.tasks, b.tasks, c.tasks);
    ActionsForwardTransitive(a.actions, b.actions, c.actions);
  }

  lemma LeftPlansTransitive(a: map<Id, Task>, b: map<Id, Task>, c: map<Id, Task>, pb: map<Id, Plan>, pc: map<Id, Plan>)
    requires TasksEvolve(a, b) && TasksForward(a, b) && TasksForward(b, c)
    requires LeftPlansDead(a, b, pb) && LeftPlansDead(b, c, pc) && PlansEvolve(pb, pc) && PlansForward(pb, pc)
    ensures LeftPlansDead(a, c, pc)
  {
    forall t | t in a && t in c && PointerMoved(a[t], c[t])
      ensures a[t].activePlan.value in pc && Displaceable(pc[a[t].activePlan.value].status)
    {
      assert TaskForward(a[t], b[t]) && TaskForward(b[t], c[t]);
      if a[t].activePlan != b[t].activePlan {
        assert PointerMoved(a[t], b[t]);
        assert PlanForward(pb[a[t].activePlan.value], pc[a[t].activePlan.value]);
      }
    }
  }

  lemma DeadPlansTransitive(a: map<Id, Task>, b: map<Id, Task>, c: map<Id, Task>, pa: map<Id, Plan>, pb: map<Id, Plan>)
    requires TasksEvolve(a, b) && PlansEvolve(pa, pb) && PlansForward(pa, pb)
    requires DeadPlansStayLeft(a, pa, b) && DeadPlansStayLeft(b, pb, c)
    ensures DeadPlansStayLeft(a, pa, c)
  {
    forall t, p | t in a && t in c && p in pa && c[t].activePlan == Some(p) && a[t].activePlan != Some(p)
      ensures !PlanTerminal(pa[p].status)
    {
      assert t in b && p in pb && PlanForward(pa[p], pb[p]);
    }
  }

  lemma StrictEvolvesTransitive(a: Db, b: Db, c: Db)
    requires Evolves(a, b) && Evolves(b, c) && StrictEvolves(a, b) && StrictEvolves(b, c)
    ensures StrictEvolves(a, c)
  {
    TablesOf(a, b);
    TablesOf(b, c);
    RowsForwardTransitive(a, b, c);
    LeftPlansTransitive(a.tasks, b.tasks, c.tasks, b.plans, c.plans);
    DeadPlansTransitive(a.tasks, b.tasks, c.tasks, a.plans, b.plans);
    forall t | t in a.tasks && t in c.tasks
      ensures c.tasks[t].attemptsUsed - a.tasks[t].attemptsUsed == |Retries(c, t)| - |Retries(a, t)|
    {
      assert t in b.tasks;
    }
  }
}
