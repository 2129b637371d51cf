/** Plan activation and supersession (v5/work.py:454-546): when they commit, what they write, and who may work afterwards. */
module Activation {
  import opened Types
  import opened Execution
  import opened Work
  import opened Invariants
  import opened RowWrites
  import opened StalePlans
  import opened Endings

  /** The task's pointer is free: it names no plan, or one that is SUPERSEDED, CANCELLED or FAILED. */
  predicate PointerFree(d: Db, task: Id)
    requires task in d.tasks
  {
    var p := d.tasks[task].activePlan;
    p.Some? ==> p.value in d.plans && d.plans[p.value].status in {PSuperseded, PCancelled, PFailed}
  }

  /** activate_plan commits exactly for an ACTIVE or BLOCKED task at the expected revision with a free pointer, and a DRAFT
      plan of that task; it then points the task at the plan and writes nothing else. */
  lemma ActivateCommitsIff(d: Db, task: Id, plan: Id, expected: nat)
    ensures var r := Work.Apply(d, ActivatePlan(task, plan, expected));
            r.res.Ok? <==>
              && task in d.tasks && d.tasks[task].revision == expected && d.tasks[task].status in {TActive, TBlocked}
              && PointerFree(d, task)
              && plan in d.plans && d.plans[plan].taskId == task && d.plans[plan].status == PDraft
    ensures var r := Work.Apply(d, ActivatePlan(task, plan, expected));
            r.db == if r.res.Ok?
                    then d.(tasks := d.tasks[task := d.tasks[task].(activePlan := Some(plan), revision := expected + 1)])
                    else d
  {
  }

  /** supersede_plan commits exactly for an ACTIVE or BLOCKED task at the expected revision that points at the old plan, both
      plans being its own and the new one DRAFT; the old plan is then SUPERSEDED by the new one and the pointer is on the new
      one, in one commit that writes nothing else. */
  lemma SupersedeCommitsIff(d: Db, task: Id, oldPlan: Id, newPlan: Id, expected: nat)
    ensures var r := Work.Apply(d, SupersedePlan(task, oldPlan, newPlan, expected));
            r.res.Ok? <==>
              && task in d.tasks && d.tasks[task].revision == expected && d.tasks[task].status in {TActive, TBlocked}
              && d.tasks[task].activePlan == Some(oldPlan)
              && oldPlan in d.plans && d.plans[oldPlan].taskId == task
              && newPlan in d.plans && d.plans[newPlan].taskId == task && d.plans[newPlan].status == PDraft
    ensures var r := Work.Apply(d, SupersedePlan(task, oldPlan, newPlan, expected));
            r.db == if r.res.Ok?
                    then d.(tasks := d.tasks[task := d.tasks[task].(activePlan := Some(newPlan), revision := expected + 1)],
                            plans := d.plans[oldPlan := d.plans[oldPlan].(status := PSuperseded, supersededBy := Some(newPlan),
                                                                          revision := d.plans[oldPlan].revision + 1)])
                    else d
  {
  }

  /** Action a, of a step of plan p, could be begun. */
  predicate Startable(d: Db, a: Id, p: Id) {
    && a in d.actions && d.actions[a].status == APending && d.actions[a].integrity != Frozen
    && d.actions[a].stepId in d.steps && d.steps[d.actions[a].stepId].planId == p
  }

  /** From the activation on, a worker of the plan starts: every startable action of it begins under it, and no action of
      another plan of the task does under its own. */
  lemma ActivatedPlanWorks(d: Db, task: Id, plan: Id, expected: nat, a: Id, q: Id)
    requires Work.Apply(d, ActivatePlan(task, plan, expected)).res.Ok?
    ensures var d' := Work.Apply(d, ActivatePlan(task, plan, expected)).db;
            && (Startable(d, a, plan) ==> Execution.Apply(d', Begin(a, d.actions[a].revision, Some(plan), NoGate)).res.Ok?)
            && (q in d.plans && d.plans[q].taskId == task && q != plan ==> Stale(d', q))
  {
    hide Work.Apply, Execution.Apply, Stale;
    ActivateCommitsIff(d, task, plan, expected);
    PointerDecides(d, Work.Apply(d, ActivatePlan(task, plan, expected)).db, task, plan, a, q);
  }

  /** The same of a supersession: the new plan's workers start, the old plan's do not any more. */
  lemma SupersededPlanStops(d: Db, task: Id, oldPlan: Id, newPlan: Id, expected: nat, a: Id)
    requires Work.Apply(d, SupersedePlan(task, oldPlan, newPlan, expected)).res.Ok? && oldPlan != newPlan
    ensures var d' := Work.Apply(d, SupersedePlan(task, oldPlan, newPlan, expected)).db;
            && (Startable(d, a, newPlan) ==> Execution.Apply(d', Begin(a, d.actions[a].revision, Some(newPlan), NoGate)).res.Ok?)
            && Stale(d', oldPlan)
  {
    hide Work.Apply, Execution.Apply, Stale;
    SupersedeCommitsIff(d, task, oldPlan, newPlan, expected);
    PointerDecides(d, Work.Apply(d, SupersedePlan(task, oldPlan, newPlan, expected)).db, task, newPlan, a, oldPlan);
  }

  /** Once a task points at p, actions of p can begin and those of its other plans cannot. */
  lemma PointerDecides(d: Db, d': Db, task: Id, p: Id, a: Id, q: Id)
    requires d'.actions == d.actions && d'.steps == d.steps
    requires task in d'.tasks && d'.tasks[task].activePlan == Some(p) && p in d'.plans && d'.plans[p].taskId == task
    ensures Startable(d, a, p) ==> Execution.Apply(d', Begin(a, d.actions[a].revision, Some(p), NoGate)).res.Ok?
    ensures q in d'.plans && d'.plans[q].taskId == task && q != p ==> Stale(d', q)
  {
    hide Execution.Apply, Stale;
    if Startable(d, a, p) { BeginCommitsIff(d', a, d.actions[a].revision, Some(p), NoGate); }
    if q in d'.plans && d'.plans[q].taskId == task && q != p { UnservedIsStale(d', q); }
  }

  /** Ending a task by transition_object stops nobody: the pointer stays, and an action of the plan it names still begins. */
  lemma TransitionStopsNobody(d: Db, task: Id, status: TaskStatus, expected: nat, p: Id, a: Id)
    requires Inv(d) && task in d.tasks && d.tasks[task].activePlan == Some(p) && Startable(d, a, p)
    requires Work.Apply(d, Transition(task, OfTask(status), expected)).res.Ok?
    ensures var d' := Work.Apply(d, Transition(task, OfTask(status), expected)).db;
            && task in d'.tasks && d'.tasks[task].status == status
            && Execution.Apply(d', Begin(a, d.actions[a].revision, Some(p), NoGate)).res.Ok?
  {
    hide Inv, Work.Apply, Execution.Apply, Startable, CanMove;
    InvHas(d, TasksSound);
    TransitionCommitsIff(d, task, OfTask(status), expected);
    PointerDecides(d, Moved(d, task, OfTask(status)), task, p, a, p);
  }
}
