/** The life of an action call by call (v5/execution.py:83-452): when each operation commits and the row it leaves. */
module Attempts {
  import opened Types
  import opened Execution
  import opened Invariants
  import opened RowWrites
  import opened Creations
  import opened Kernel

  /** The task an action works for: of its step's plan. */
  predicate WorksFor(d: Db, a: Id, task: Id) {
    && a in d.actions && d.actions[a].stepId in d.steps && d.steps[d.actions[a].stepId].planId in d.plans
    && d.plans[d.steps[d.actions[a].stepId].planId].taskId == task
  }

  /** At this revision, in this status and not frozen. */
  predicate Ready(d: Db, a: Id, status: ActionStatus, expected: nat) {
    a in d.actions && d.actions[a].revision == expected && d.actions[a].integrity != Frozen && d.actions[a].status == status
  }

  /** create_action writes one PENDING, sound, unbound-to-any-retry row with what it was given, and nothing else. */
  lemma CreatedAction(d: Db, step: Id, capability: string, arguments: string, idempotency: Idempotency,
                      confirmation: Option<Id>, expected: Option<nat>, argumentsOk: bool)
    requires Inv(d)
    ensures var c := CreateAction(step, capability, arguments, idempotency, confirmation, expected, argumentsOk);
            var r, a := Execution.Apply(d, c), Id(ActionK, d.next);
            && (r.res.Ok? <==> Acceptable(d, c))
            && if r.res.Ok?
               then r.res == Ok(Some(a), 0) && a !in d.actions
                    && r.db == d.(next := d.next + 1, actions := d.actions[a :=
                         Action(0, step, APending, capability, arguments, idempotency, confirmation, None, Sound)])
               else r.db == d
  {
    hide Inv;
    MintedKeys(d);
  }

  /** mark_unknown_outcome commits exactly for an unfrozen EXECUTING action at the expected revision; it writes
      UNKNOWN_OUTCOME and one OPEN obligation about the action, owned by the task the action works for, in one commit. */
  lemma UnknownCommitsIff(d: Db, a: Id, expected: nat, task: Id)
    requires Inv(d) && (a in d.actions ==> WorksFor(d, a, task))
    ensures var r, o := Execution.Apply(d, MarkUnknown(a, expected)), Id(ObligationK, d.next);
            && (r.res.Ok? <==> Ready(d, a, AExecuting, expected))
            && if r.res.Ok?
               then r.res == Ok(Some(o), 0) && o !in d.obligations
                    && r.db == d.(next := d.next + 1,
                         actions := d.actions[a := d.actions[a].(status := AUnknown, revision := expected + 1)],
                         obligations := d.obligations[o := Obligation(a, Owned(task), Open, 0, [])])
               else r.db == d
  {
    hide Inv;
    MintedKeys(d);
  }

  /** The task is always there to be found. */
  lemma WorksForSome(d: Db, a: Id) returns (task: Id)
    requires Inv(d) && a in d.actions
    ensures WorksFor(d, a, task) && task in d.tasks
  {
    hide Inv;
    InvHas(d, ActionsSound);
    InvHas(d, StepsSound);
    InvHas(d, PlansAcyclic);
    task := d.plans[d.steps[d.actions[a].stepId].planId].taskId;
  }

  /** mark_failed commits exactly for an EXECUTING action at the expected revision, frozen or not, of which no effect is
      definite. */
  lemma FailedCommitsIff(d: Db, a: Id, expected: nat, definite: bool)
    ensures var r := Execution.Apply(d, MarkFailed(a, expected, definite));
            && (r.res.Ok? <==> a in d.actions && d.actions[a].revision == expected && d.actions[a].status == AExecuting && definite)
            && r.db == if r.res.Ok?
                       then d.(actions := d.actions[a := d.actions[a].(status := AFailed, revision := expected + 1)])
                       else d
  {
  }

  /** cancel_action commits exactly for a PENDING or EXECUTING action at the expected revision. */
  lemma CancelledCommitsIff(d: Db, a: Id, expected: nat)
    ensures var r := Execution.Apply(d, CancelAction(a, expected));
            && (r.res.Ok? <==> a in d.actions && d.actions[a].revision == expected && d.actions[a].status in {APending, AExecuting})
            && r.db == if r.res.Ok?
                       then d.(actions := d.actions[a := d.actions[a].(status := ACancelled, revision := expected + 1)])
                       else d
  {
  }

  /** A retry commits exactly for an UNKNOWN_OUTCOME or FAILED action whose task, at the expected revision, has attempts
      left; it adds the next attempt and charges the task one, in one commit. */
  lemma RetryWrites(d: Db, a: Id, expectedTask: nat, task: Id)
    requires Inv(d) && (a in d.actions ==> WorksFor(d, a, task))
    ensures var r, n := Execution.Apply(d, Retry(a, expectedTask)), Id(ActionK, d.next);
            && (r.res.Ok? <==>
                  && a in d.actions && d.actions[a].status in {AUnknown, AFailed}
                  && task in d.tasks && d.tasks[task].revision == expectedTask
                  && d.tasks[task].attemptsUsed < d.tasks[task].maxAttempts)
            && if r.res.Ok?
               then n !in d.actions && r.res == Ok(Some(n), 0) && Charged(d, r.db, a, n, task)
               else r.db == d
  {
    hide Inv;
    MintedKeys(d);
  }

  predicate Charged(d: Db, d': Db, a: Id, n: Id, task: Id) {
    && a in d.actions && task in d.tasks
    && var x, t := d.actions[a], d.tasks[task];
       d' == d.(next := d.next + 1,
              actions := d.actions[n := Action(0, x.stepId, APending, x.capability, x.arguments, x.idempotency, None, Some(a), Sound)],
              tasks := d.tasks[task := t.(attemptsUsed := t.attemptsUsed + 1, revision := t.revision + 1)])
  }

  /** Freezing an action commits for any one there is, keeps its status, and from then on it is neither begun, observed nor
      marked uncertain. */
  lemma FrozenActionRests(d: Db, a: Id, e: nat, plan: Option<Id>, gate: Gate, raw: string)
    ensures var r := Execution.Apply(d, FreezeAction(a));
            && (r.res.Ok? <==> a in d.actions)
            && r.db == (if a in d.actions
                        then d.(actions := d.actions[a := d.actions[a].(integrity := Frozen, revision := d.actions[a].revision + 1)])
                        else d)
            && !Execution.Apply(r.db, Begin(a, e, plan, gate)).res.Ok?
            && !Execution.Apply(r.db, MarkObserved(a, e, raw, plan)).res.Ok?
            && !Execution.Apply(r.db, MarkUnknown(a, e)).res.Ok?
  {
    hide PlanMismatchReason, OwningTask;
  }

  /** Every begin that commits, a caller's or a worker's, is in the log with its action, the revision it started from and,
      when a confirmation was required, the row that answered; no other begin is. */
  lemma BeginsAreLogged(w: World, p: nat, a: Id, expected: nat, plan: Option<Id>, gate: Gate)
    ensures var required := gate.ConfirmationGate? && gate.required;
            var logged := if Execution.Apply(w.db, Begin(a, expected, plan, gate)).res.Ok?
                          then [Start(a, expected, required, if required then gate.row else None)] else [];
            && Next(w, Do(OfAction(Begin(a, expected, plan, gate)))).starts == w.starts + logged
            && (p !in w.workers ==> Next(w, ExecuteBegin(p, a, expected, plan, gate)).starts == w.starts + logged)
  {
    hide BeginTx;
    assert w.starts + [] == w.starts;
  }

  // ----------------------------------------------------------------- how an execution ends

  /** A worker's reply decides how an action it left alone ends: a value is OBSERVED with that value on record, a failure
      without effect is FAILED, any other failure UNKNOWN_OUTCOME with one OPEN obligation of the task. */
  lemma ReplyDecides(w: World, p: nat, task: Id)
    requires Inv(w.db) && p in w.workers && w.workers[p].Returned? && w.workers[p].plan.None?
    requires WorksFor(w.db, w.workers[p].action, task)
    requires Ready(w.db, w.workers[p].action, AExecuting, w.workers[p].start + 1)
    ensures var d, d', x := w.db, Next(w, ExecuteEnd(p)).db, w.workers[p];
            && x.action in d'.actions
            && d'.observations == (if x.reply.Value?
                                   then d.observations[Id(ObservationK, d.next) := Observation(x.action, x.reply.raw)]
                                   else d.observations)
            && d'.obligations == (if x.reply.OtherFailure?
                                  then d.obligations[Id(ObligationK, d.next) := Obligation(x.action, Owned(task), Open, 0, [])]
                                  else d.obligations)
            && d'.actions[x.action].status == (match x.reply
                                               case Value(_) => AObserved
                                               case DefiniteNoEffect => AFailed
                                               case OtherFailure => AUnknown)
  {
    hide Inv, MarkObservedTx, MarkUnknownTx, MarkFailedTx, Ready, WorksFor;
    var x := w.workers[p];
    match x.reply
    case Value(raw) => ObservedEnd(w.db, x.action, x.start + 1, raw);
    case DefiniteNoEffect => FailedCommitsIff(w.db, x.action, x.start + 1, true); ReadyRow(w.db, x.action, x.start + 1);
    case OtherFailure => UnknownCommitsIff(w.db, x.action, x.start + 1, task); ReadyRow(w.db, x.action, x.start + 1);
  }

  lemma ReadyRow(d: Db, a: Id, expected: nat)
    requires Ready(d, a, AExecuting, expected)
    ensures a in d.actions && d.actions[a].revision == expected && d.actions[a].status == AExecuting
  {
  }

  lemma ObservedEnd(d: Db, a: Id, expected: nat, raw: string)
    requires Ready(d, a, AExecuting, expected)
    ensures MarkObservedTx(d, a, expected, raw, None).db
         == d.(next := d.next + 1, actions := d.actions[a := d.actions[a].(status := AObserved, revision := expected + 1)],
               observations := d.observations[Id(ObservationK, d.next) := Observation(a, raw)])
    ensures a in d.actions
  {
  }
}
