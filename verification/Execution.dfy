/** Action lifecycle (v5/execution.py). */
module Execution {
  import opened Types
  import opened Obligations
  import opened Safety

  /** The safety_check handed to begin_executing: none, or the confirmation gate with
      `row` as the answer of its query. */
  datatype Gate = NoGate | ConfirmationGate(required: bool, row: Option<Id>)

  datatype ActionCall =
    | CreateAction(step: Id, capability: string, arguments: string, idempotency: Idempotency,
                   confirmation: Option<Id>, expectedStep: Option<nat>, argumentsOk: bool)
    | Begin(action: Id, expected: nat, plan: Option<Id>, gate: Gate)
    | MarkObserved(action: Id, expected: nat, raw: string, plan: Option<Id>)
    | MarkUnknown(action: Id, expected: nat)
    | MarkFailed(action: Id, expected: nat, definiteNoEffect: bool)
    | CancelAction(action: Id, expected: nat)
    | Retry(action: Id, expectedTask: nat)
    | FreezeAction(action: Id)

  /** `argumentsOk` is the verdict of the capability's schema check (true when it has none). */
  function CreateActionTx(d: Db, c: ActionCall): (r: Tx)
    requires c.CreateAction?
    ensures r.db == d.(next := r.db.next, actions := r.db.actions)
  {
    if c.step !in d.steps then Reject(d, NotFound)
    else
      var s := d.steps[c.step];
      if s.status in {SCancelled, SSkipped, SCompleted} then Reject(d, InvalidTransition)
      else if c.expectedStep.Some? && s.revision != c.expectedStep.value then Reject(d, StaleRevision)
      else if s.capability != "" && c.capability != s.capability then Reject(d, InvalidTransition)
      else if !c.argumentsOk then Reject(d, ArgumentsInvalid)
      else
        var id := Id(ActionK, d.next);
        var row := Action(0, c.step, APending, c.capability, c.arguments, c.idempotency, c.confirmation, None, Sound);
        Made(d.(next := d.next + 1, actions := d.actions[id := row]), id)
  }

  /** _plan_mismatch_locked: the worker's believed plan against the task's active one. */
  function PlanMismatchReason(d: Db, a: Action, believed: Id): Option<Reason> {
    if a.stepId !in d.steps then Some(NotFound)
    else
      var plan := d.steps[a.stepId].planId;
      if plan !in d.plans then Some(NotFound)
      else if plan != believed then Some(PlanMismatch)
      else if d.plans[plan].taskId !in d.tasks then Some(NotFound)
      else if d.tasks[d.plans[plan].taskId].activePlan != Some(believed) then Some(PlanSuperseded)
      else None
  }

  /** Move an action along its table, one revision up. */
  function Advanced(a: Action, s: ActionStatus): Action { a.(status := s, revision := a.revision + 1) }

  function Advance(d: Db, id: Id, s: ActionStatus): Db
    requires id in d.actions
  {
    d.(actions := d.actions[id := Advanced(d.actions[id], s)])
  }

  function BeginTx(d: Db, id: Id, expected: nat, plan: Option<Id>, gate: Gate): (r: Tx)
    ensures r.db == d.(actions := r.db.actions)
    ensures r.res.Ok? || r.res.Rejected?
  {
    if id !in d.actions then Reject(d, NotFound)
    else
      var a := d.actions[id];
      if a.revision != expected then Reject(d, StaleRevision)
      else if a.integrity == Frozen then Reject(d, FrozenObject)
      else if ActionTerminal(a.status) then Reject(d, AlreadyTerminal)
      else if AExecuting !in ActionNext(a.status) then Reject(d, InvalidTransition)
      else if plan.Some? && PlanMismatchReason(d, a, plan.value).Some?
      then Reject(d, PlanMismatchReason(d, a, plan.value).value)
      else if gate.ConfirmationGate? && gate.required && !GateOpens(d, id, a, gate.row)
      then Reject(d, ConfirmationRequired)
      else Done(Advance(d, id, AExecuting))
  }

  function MarkObservedTx(d: Db, id: Id, expected: nat, raw: string, plan: Option<Id>): (r: Tx)
    ensures r.db == d.(next := r.db.next, actions := r.db.actions, observations := r.db.observations)
  {
    if id !in d.actions then Reject(d, NotFound)
    else
      var a := d.actions[id];
      if a.revision != expected then Reject(d, StaleRevision)
      else if a.integrity == Frozen then Reject(d, FrozenObject)
      else if AObserved !in ActionNext(a.status) then Reject(d, InvalidTransition)
      else if plan.Some? && PlanMismatchReason(d, a, plan.value).Some?
      then Reject(d, PlanMismatchReason(d, a, plan.value).value)
      else
        var obs := Id(ObservationK, d.next);
        Made(Advance(d, id, AObserved).(next := d.next + 1,
                                        observations := d.observations[obs := Observation(id, raw)]), obs)
  }

  function MarkUnknownTx(d: Db, id: Id, expected: nat): (r: Tx)
    ensures r.db == d.(next := r.db.next, actions := r.db.actions, obligations := r.db.obligations)
    ensures r.db.actions.Keys == d.actions.Keys
  {
    if id !in d.actions then Reject(d, NotFound)
    else
      var a := d.actions[id];
      if a.revision != expected then Reject(d, StaleRevision)
      else if a.integrity == Frozen then Reject(d, FrozenObject)
      else if AUnknown !in ActionNext(a.status) then Reject(d, InvalidTransition)
      else
        var owner := OwningTask(d, a);
        if owner.None? then Reject(d, NotFound)
        else
          var o := Id(ObligationK, d.next);
          Made(Advance(d, id, AUnknown).(next := d.next + 1,
                                         obligations := d.obligations[o := NewObligation(id, Owned(owner.value))]), o)
  }

  function MarkFailedTx(d: Db, id: Id, expected: nat, definiteNoEffect: bool): (r: Tx)
    ensures r.db == d.(actions := r.db.actions)
  {
    if id !in d.actions then Reject(d, NotFound)
    else if d.actions[id].revision != expected then Reject(d, StaleRevision)
    else if !definiteNoEffect then Reject(d, NotDefinite)
    else if AFailed !in ActionNext(d.actions[id].status) then Reject(d, InvalidTransition)
    else Done(Advance(d, id, AFailed))
  }

  function CancelActionTx(d: Db, id: Id, expected: nat): (r: Tx)
    ensures r.db == d.(actions := r.db.actions)
  {
    if id !in d.actions then Reject(d, NotFound)
    else if d.actions[id].revision != expected then Reject(d, StaleRevision)
    else if ACancelled !in ActionNext(d.actions[id].status) then Reject(d, InvalidTransition)
    else Done(Advance(d, id, ACancelled))
  }

  /** The new attempt: same step, capability and arguments, unstarted, unconfirmed. */
  function RetryOf(id: Id, a: Action): Action {
    Action(0, a.stepId, APending, a.capability, a.arguments, a.idempotency, None, Some(id), Sound)
  }

  function RetryTx(d: Db, id: Id, expectedTask: nat): (r: Tx)
    ensures r.db == d.(next := r.db.next, actions := r.db.actions, tasks := r.db.tasks)
  {
    if id !in d.actions then Reject(d, NotFound)
    else
      var a := d.actions[id];
      if a.status !in {AUnknown, AFailed} then Reject(d, NotRetryable)
      else if OwningTask(d, a).None? || OwningTask(d, a).value !in d.tasks then Reject(d, NotFound)
      else
        var owner := OwningTask(d, a).value;
        var t := d.tasks[owner];
        if t.revision != expectedTask then Reject(d, StaleRevision)
        else if t.attemptsUsed >= t.maxAttempts then Reject(d, RetryBudgetExhausted)
        else
          var attempt := Id(ActionK, d.next);
          Made(d.(next := d.next + 1,
                  actions := d.actions[attempt := RetryOf(id, a)],
                  tasks := d.tasks[owner := t.(attemptsUsed := t.attemptsUsed + 1, revision := t.revision + 1)]), attempt)
  }

  function FreezeActionTx(d: Db, id: Id): (r: Tx)
    ensures r.db == d.(actions := r.db.actions)
    ensures r.db.actions.Keys == d.actions.Keys
  {
    if id !in d.actions then Reject(d, NotFound)
    else
      var a := d.actions[id];
      Done(d.(actions := d.actions[id := a.(integrity := Frozen, revision := a.revision + 1)]))
  }

  function Apply(d: Db, c: ActionCall): Tx {
    match c
    case CreateAction(_, _, _, _, _, _, _) => CreateActionTx(d, c)
    case Begin(a, e, p, g) => BeginTx(d, a, e, p, g)
    case MarkObserved(a, e, raw, p) => MarkObservedTx(d, a, e, raw, p)
    case MarkUnknown(a, e) => MarkUnknownTx(d, a, e)
    case MarkFailed(a, e, b) => MarkFailedTx(d, a, e, b)
    case CancelAction(a, e) => CancelActionTx(d, a, e)
    case Retry(a, e) => RetryTx(d, a, e)
    case FreezeAction(a) => FreezeActionTx(d, a)
  }

  // --------------------------------------------------- post-restart classification

  datatype Outcome = KnownNotStarted | KnownStarted | KnownCompleted | UnknownOutcome | IntegrityViolation

  predicate Observed(d: Db, action: Id) {
    exists o :: o in d.observations && d.observations[o].actionId == action
  }

  /** classify_action_state. */
  function Classify(d: Db, id: Id): Outcome
    requires id in d.actions
  {
    var s := d.actions[id].status;
    if Observed(d, id) && s != AObserved then IntegrityViolation
    else match s
         case APending => KnownNotStarted
         case AExecuting => KnownStarted
         case AObserved => KnownCompleted
         case AUnknown => UnknownOutcome
         case _ => KnownNotStarted
  }
}
