/** Workers act under the plan they believe in (v5/execution.py:145-250): exactly when begin_executing and mark_observed
    commit, and that a plan left behind starts nothing and records nothing any more. */
module StalePlans {
  import opened Types
  import opened Safety
  import opened Execution
  import opened Confirming
  import opened Invariants
  import opened Kernel
  import opened RunTheorems
  import opened Theorems

  /** The step belongs to p, and p is the plan its task points at. */
  predicate ServesActive(d: Db, step: Id, p: Id) {
    && step in d.steps && d.steps[step].planId == p
    && p in d.plans && d.plans[p].taskId in d.tasks
    && d.tasks[d.plans[p].taskId].activePlan == Some(p)
  }

  /** begin_executing commits exactly for an unfrozen PENDING action at the expected revision, under the plan its task
      points at when one is named, and with an answer to a required confirmation; it then writes EXECUTING and nothing
      else. */
  lemma BeginCommitsIff(d: Db, a: Id, expected: nat, plan: Option<Id>, gate: Gate)
    ensures var r := Execution.Apply(d, Begin(a, expected, plan, gate));
            r.res.Ok? <==>
              && a in d.actions && d.actions[a].revision == expected
              && d.actions[a].integrity != Frozen && d.actions[a].status == APending
              && (plan.Some? ==> ServesActive(d, d.actions[a].stepId, plan.value))
              && (gate.ConfirmationGate? && gate.required ==> Answers(d, a, gate.row))
    ensures var r := Execution.Apply(d, Begin(a, expected, plan, gate));
            r.db == if r.res.Ok?
                    then d.(actions := d.actions[a := d.actions[a].(status := AExecuting, revision := expected + 1)])
                    else d
  {
    if a in d.actions { GateAnswers(d, a, if gate.ConfirmationGate? then gate.row else None); }
  }

  /** mark_observed commits exactly for an unfrozen EXECUTING action under such a plan; it then writes OBSERVED together
      with one Observation of what came back, under a number not used before. */
  lemma ObserveCommitsIff(d: Db, a: Id, expected: nat, raw: string, plan: Option<Id>)
    ensures var r := Execution.Apply(d, MarkObserved(a, expected, raw, plan));
            r.res.Ok? <==>
              && a in d.actions && d.actions[a].revision == expected
              && d.actions[a].integrity != Frozen && d.actions[a].status == AExecuting
              && (plan.Some? ==> ServesActive(d, d.actions[a].stepId, plan.value))
    ensures var r := Execution.Apply(d, MarkObserved(a, expected, raw, plan));
            var obs := Id(ObservationK, d.next);
            if r.res.Ok?
            then r.res.made == Some(obs) && r.db == d.(next := d.next + 1,
                   actions := d.actions[a := d.actions[a].(status := AObserved, revision := expected + 1)],
                   observations := d.observations[obs := Observation(a, raw)])
            else r.db == d
  {
  }

  /** A worker that is refused for its plan alone is told so: PLAN_MISMATCH when its step is of another plan,
      PLAN_SUPERSEDED when the task points elsewhere by now. */
  lemma StaleWorkerIsTold(d: Db, a: Id, raw: string, p: Id, gate: Gate)
    requires a in d.actions && d.actions[a].integrity != Frozen
    requires d.actions[a].stepId in d.steps && d.steps[d.actions[a].stepId].planId in d.plans
    requires d.plans[d.steps[d.actions[a].stepId].planId].taskId in d.tasks
    requires !ServesActive(d, d.actions[a].stepId, p)
    ensures var why := if d.steps[d.actions[a].stepId].planId != p then PlanMismatch else PlanSuperseded;
            && (d.actions[a].status == APending ==>
                  Execution.Apply(d, Begin(a, d.actions[a].revision, Some(p), gate)).res == Rejected(why))
            && (d.actions[a].status == AExecuting ==>
                  Execution.Apply(d, MarkObserved(a, d.actions[a].revision, raw, Some(p))).res == Rejected(why))
  {
    hide GateOpens;
  }

  /** Nothing of plan p is begun or observed at d by a worker that believes in p. */
  ghost predicate Stale(d: Db, p: Id) {
    && (forall a, e, gate :: !Execution.Apply(d, Begin(a, e, Some(p), gate)).res.Ok?)
    && (forall a, e, raw :: !Execution.Apply(d, MarkObserved(a, e, raw, Some(p))).res.Ok?)
  }

  /** p is stale exactly when no unfrozen action could use it: the two verdicts a worker of p can still get. */
  lemma StaleIff(d: Db, p: Id)
    ensures Stale(d, p) <==>
              forall a :: a in d.actions && d.actions[a].integrity != Frozen && d.actions[a].status in {APending, AExecuting} ==>
                !ServesActive(d, d.actions[a].stepId, p)
  {
    hide Execution.Apply, Answers, ServesActive;
    forall a, e, gate
      ensures Execution.Apply(d, Begin(a, e, Some(p), gate)).res.Ok? ==>
                a in d.actions && d.actions[a].integrity != Frozen && d.actions[a].status == APending
                && ServesActive(d, d.actions[a].stepId, p)
    {
      BeginCommitsIff(d, a, e, Some(p), gate);
    }
    forall a, e, raw
      ensures Execution.Apply(d, MarkObserved(a, e, raw, Some(p))).res.Ok? ==>
                a in d.actions && d.actions[a].integrity != Frozen && d.actions[a].status == AExecuting
                && ServesActive(d, d.actions[a].stepId, p)
    {
      ObserveCommitsIff(d, a, e, raw, Some(p));
    }
    if Stale(d, p) {
      forall a | a in d.actions && d.actions[a].integrity != Frozen && d.actions[a].status in {APending, AExecuting}
        ensures !ServesActive(d, d.actions[a].stepId, p)
      {
        BeginCommitsIff(d, a, d.actions[a].revision, Some(p), NoGate);
        ObserveCommitsIff(d, a, d.actions[a].revision, "", Some(p));
      }
    }
  }

  lemma UnservedIsStale(d: Db, p: Id)
    requires forall s :: !ServesActive(d, s, p)
    ensures Stale(d, p)
  {
    hide Stale, ServesActive;
    StaleIff(d, p);
  }

  /** Without repair: once the task's pointer has moved from p to another plan, no action is ever begun or observed under
      p again, whatever happens. */
  lemma {:induction false} LeftPlanStartsNothing(w: World, more: seq<Label>, later: seq<Label>, t: Id)
    requires CleanlyReachable(w) && RepairFree(more) && RepairFree(later) && t in w.db.tasks
    requires t in Run(w, more).db.tasks && PointerMoved(w.db.tasks[t], Run(w, more).db.tasks[t])
    ensures Stale(Run(Run(w, more), later).db, w.db.tasks[t].activePlan.value)
  {
    hide Run, CleanlyReachable, Reachable, Stale;
    var p, w1 := w.db.tasks[t].activePlan.value, Run(w, more);
    CleanIsReachable(w);
    PointerSound(w, t);
    LeftPlanNeverReturns(w, more, later, t);
    Onward(w, more);
    Onward(w1, later);
    UnservedIsStale(Run(w1, later).db, p);
  }

  lemma CleanIsReachable(w: World)
    requires CleanlyReachable(w)
    ensures Reachable(w)
  {
  }

  /** Without repair: once a task has ended with its pointer cleared, which is how complete_object, cancel_task and
      archive_object leave it, no action of any of its plans is begun or observed under that plan again. */
  lemma {:induction false} EndedTaskStartsNothing(w: World, labels: seq<Label>, t: Id, p: Id)
    requires CleanlyReachable(w) && RepairFree(labels) && t in w.db.tasks
    requires TaskTerminal(w.db.tasks[t].status) && w.db.tasks[t].activePlan.None?
    requires p in Run(w, labels).db.plans && Run(w, labels).db.plans[p].taskId == t
    ensures Stale(Run(w, labels).db, p)
  {
    hide Run, CleanlyReachable, Reachable, Stale;
    TerminalIsForever(w, labels, t);
    UnservedIsStale(Run(w, labels).db, p);
  }
}
