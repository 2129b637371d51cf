/** Statuses, transition tables, rows and the table set of the V5 state kernel
    (v5/enums.py, v5/models.py and the schema in v5/store.py). */
module Types {

  datatype Option<+T> = None | Some(value: T)

  // ---------------------------------------------------------------- identifiers

  /** One kind per table; the prefixes in v5/ids.py keep the kinds disjoint. */
  datatype Kind =
    | GoalK | TaskK | PlanK | StepK | ActionK | ObservationK
    | EvidenceK | ClaimK | VerificationK | ObligationK | ConfirmationK

  datatype Id = Id(kind: Kind, n: nat)

  /** The canonical owner of an obligation: the registry sentinel "UOR" or an object id. */
  datatype Owner = Uor | Owned(id: Id)

  // ------------------------------------------------------------------- statuses

  datatype GoalStatus = GActive | GPaused | GBlocked | GCompleted | GCancelled | GArchived

  datatype TaskStatus =
    | TPending | TActive | TBlocked | TPaused | TCompleted | TFailed | TCancelled | TArchived

  datatype PlanStatus = PDraft | PBlocked | PCompleted | PFailed | PCancelled | PSuperseded | PArchived

  datatype StepStatus =
    | SPending | SReady | SExecuting | SBlocked | SCompleted | SFailed | SCancelled | SSkipped

  datatype ActionStatus = APending | AExecuting | AObserved | AUnknown | AFailed | ACancelled

  datatype VerificationResult = VPending | VRunning | VPass | VFail | VInconclusive

  datatype EvidenceStatus = ConfirmedSource | ConfirmedRuntime | Inference | UnknownEvidence

  datatype Confidence = High | Medium | Low | Unverified

  datatype Disposition = Open | Resolved | Abandoned

  datatype Idempotency = Idempotent | ConditionallyIdempotent | NonIdempotent | UnknownIdempotency

  datatype Integrity = Sound | Frozen | AbandonedUnrepairable

  /** A target status of any work object, as transition_object receives it. */
  datatype WorkStatus =
    | OfGoal(goal: GoalStatus) | OfTask(task: TaskStatus) | OfPlan(plan: PlanStatus) | OfStep(step: StepStatus)

  // ---------------------------------------------------------- transition tables

  function GoalNext(s: GoalStatus): set<GoalStatus> {
    match s
    case GActive => {GPaused, GBlocked, GCompleted, GCancelled, GArchived}
    case GPaused => {GActive, GCompleted, GCancelled, GArchived}
    case GBlocked => {GActive, GCancelled}
    case _ => {}
  }

  function TaskNext(s: TaskStatus): set<TaskStatus> {
    match s
    case TPending => {TActive, TCancelled, TFailed, TArchived}
    case TActive => {TPaused, TBlocked, TCompleted, TCancelled, TFailed, TArchived}
    case TPaused => {TActive, TCompleted, TCancelled, TArchived}
    case TBlocked => {TActive, TCancelled}
    case _ => {}
  }

  function PlanNext(s: PlanStatus): set<PlanStatus> {
    match s
    case PDraft => {PBlocked, PCompleted, PFailed, PCancelled, PSuperseded, PArchived}
    case PBlocked => {PDraft, PCancelled}
    case _ => {}
  }

  function StepNext(s: StepStatus): set<StepStatus> {
    match s
    case SPending => {SReady, SBlocked, SCancelled, SSkipped}
    case SReady => {SExecuting, SBlocked, SCancelled, SSkipped, SFailed}
    case SExecuting => {SCompleted, SFailed, SBlocked, SCancelled}
    case SBlocked => {SReady, SCancelled, SSkipped}
    case _ => {}
  }

  function ActionNext(s: ActionStatus): set<ActionStatus> {
    match s
    case APending => {AExecuting, ACancelled}
    case AExecuting => {AObserved, AUnknown, AFailed, ACancelled}
    case _ => {}
  }

  // The terminal sets; in every table they are the statuses without a row above.
  predicate GoalTerminal(s: GoalStatus) { s in {GCompleted, GCancelled, GArchived} }
  predicate TaskTerminal(s: TaskStatus) { s in {TCompleted, TFailed, TCancelled, TArchived} }
  predicate PlanTerminal(s: PlanStatus) { s in {PCompleted, PFailed, PCancelled, PSuperseded, PArchived} }
  predicate StepTerminal(s: StepStatus) { s in {SCompleted, SFailed, SCancelled, SSkipped} }
  predicate ActionTerminal(s: ActionStatus) { s in {AObserved, AUnknown, AFailed, ACancelled} }

  /** A plan a task may move away from (v5/work.py:480-482). */
  predicate Displaceable(s: PlanStatus) { s in {PSuperseded, PCancelled, PFailed} }

  // ----------------------------------------------------------------------- rows

  /** NOfM carries 0 when the stored n is absent. */
  datatype Policy = AllRequired | AnyRequired | NOfM(n: int) | Criterion | UnknownRule

  datatype Goal = Goal(revision: nat, status: GoalStatus, policy: Policy, integrity: Integrity)

  datatype Task = Task(revision: nat, goalId: Id, status: TaskStatus, activePlan: Option<Id>,
                       policy: Policy, maxAttempts: int, attemptsUsed: int, integrity: Integrity)

  /** step id -> ids it depends on. */
  type Graph = map<Id, set<Id>>

  datatype Plan = Plan(revision: nat, taskId: Id, status: PlanStatus, supersededBy: Option<Id>, graph: Graph)

  datatype Step = Step(revision: nat, planId: Id, status: StepStatus, required: bool,
                       dependsOn: set<Id>, capability: string)

  datatype Action = Action(revision: nat, stepId: Id, status: ActionStatus, capability: string,
                           arguments: string, idempotency: Idempotency, confirmationId: Option<Id>,
                           retryOf: Option<Id>, integrity: Integrity)

  datatype Observation = Observation(actionId: Id, raw: string)

  datatype Evidence = Evidence(status: EvidenceStatus, origin: Option<Id>)

  datatype ClaimKey = ClaimKey(id: Id, version: nat)

  datatype Claim = Claim(basedOn: seq<Id>, confidence: Confidence)

  /** `ungated` is a history variable, not a column: some verdict on the row was committed by
      run_verification without for_action_id, which skips the executed-action gate. */
  datatype Verification = Verification(verifies: Id, methodName: string, level: string,
                                       result: VerificationResult, stepId: Option<Id>, ungated: bool)

  datatype EventKind = EvTransferred | EvResolved | EvAbandoned

  datatype Event = Event(kind: EventKind, from: Owner, to: Option<Owner>)

  /** The row together with its rows of obligation_events, in sequence order. */
  datatype Obligation = Obligation(origin: Id, owner: Owner, disposition: Disposition,
                                   revision: nat, history: seq<Event>)

  datatype Confirmation = Confirmation(actionId: Id, actionRevision: nat, capability: string,
                                       arguments: string, confirmedAt: Option<int>)

  /** The canonical tables. `next` is the fresh-id supply: every id in use has a smaller number. */
  datatype Db = Db(next: nat,
                   goals: map<Id, Goal>,
                   tasks: map<Id, Task>,
                   plans: map<Id, Plan>,
                   steps: map<Id, Step>,
                   actions: map<Id, Action>,
                   observations: map<Id, Observation>,
                   evidence: map<Id, Evidence>,
                   claims: map<ClaimKey, Claim>,
                   verifications: map<Id, Verification>,
                   required: set<(Id, Id)>,
                   obligations: map<Id, Obligation>,
                   confirmations: map<Id, Confirmation>)

  const EMPTY_DB := Db(0, map[], map[], map[], map[], map[], map[], map[], map[], map[], {}, map[], map[])

  // -------------------------------------------------------------------- results

  datatype Reason =
    | NotFound | StaleRevision | InvalidTransition | FrozenObject | PlanExclusivity | PlanNotDraft
    | PlanMismatch | PlanSuperseded | PolicyUnsatisfied | VerificationNotPass | NotOpen | WrongOwner
    | OwnerInvalid | ConfirmationRequired | RetryBudgetExhausted | NotRetryable | DependencyCycle
    | Fabrication | StaleRepair | AggregateInvalid | AlreadyTerminal | ConfidenceNotJustified
    | MalformedProposal | UnknownMethod | CapabilityMismatch | ArgumentsInvalid | ActionNotExecuted
    | ActionNotBound | AlreadyFinal | InvalidIndependence | NotDefinite | NeedsHuman | NeedsReason
    | FieldForbidden | AlreadyAbandoned | ResolutionProvenance

  /** `Raised` is an exception escaping the transaction (which then rolls back);
      `Crashed` a simulated process death. */
  datatype Result =
    | Ok(made: Option<Id>, moved: nat)
    | Noop
    | Rejected(reason: Reason)
    | Raised
    | Crashed

  /** What one committed transaction leaves behind and answers. */
  datatype Tx = Tx(db: Db, res: Result)

  function Reject(d: Db, r: Reason): Tx { Tx(d, Rejected(r)) }

  function Done(d: Db): Tx { Tx(d, Ok(None, 0)) }

  function Made(d: Db, id: Id): Tx { Tx(d, Ok(Some(id), 0)) }

  // --------------------------------------------------------------------- lookup

  datatype Object =
    | AGoal(goal: Goal) | ATask(task: Task) | APlan(plan: Plan) | AStep(step: Step) | AnAction(action: Action)
    | NoObject

  /** _load_object: the tables are tried in this order (v5/work.py:867-875). */
  function Load(d: Db, id: Id): Object {
    if id in d.goals then AGoal(d.goals[id])
    else if id in d.tasks then ATask(d.tasks[id])
    else if id in d.plans then APlan(d.plans[id])
    else if id in d.steps then AStep(d.steps[id])
    else if id in d.actions then AnAction(d.actions[id])
    else NoObject
  }

  /** action -> step -> plan -> task (v5/execution.py:297-302). */
  function OwningTask(d: Db, a: Action): Option<Id> {
    if a.stepId in d.steps && d.steps[a.stepId].planId in d.plans
    then Some(d.plans[d.steps[a.stepId].planId].taskId)
    else None
  }

  predicate ValidOwner(d: Db, o: Owner) { o == Uor || (o.Owned? && o.id in d.tasks) }
}
