/** Exactly when complete_object commits (v5/work.py:548-708), said of the rows it counts. */
module Completion {
  import opened Types
  import opened Graphs
  import opened Obligations
  import opened Work

  // ---------------------------------------------------------------- what the policies count

  /** A task that counts for its goal: neither CANCELLED nor ARCHIVED. */
  predicate TaskCounts(d: Db, goal: Id, t: Id) {
    t in d.tasks && d.tasks[t].goalId == goal && d.tasks[t].status != TCancelled && d.tasks[t].status != TArchived
  }

  /** A step that counts for its task: of the active plan, not CANCELLED. */
  predicate StepCounts(d: Db, task: Id, s: Id)
    requires task in d.tasks
  {
    && s in d.steps && d.tasks[task].activePlan == Some(d.steps[s].planId) && d.steps[s].status != SCancelled
  }

  predicate TaskDone(d: Db, t: Id) { t in d.tasks && d.tasks[t].status == TCompleted }

  predicate StepDone(d: Db, s: Id) { s in d.steps && d.steps[s].status in {SCompleted, SSkipped} }

  predicate AllCompleted(d: Db, goal: Id, s: set<Id>) { forall t :: t in s ==> TaskCounts(d, goal, t) && TaskDone(d, t) }

  predicate AllStepsDone(d: Db, task: Id, s: set<Id>)
    requires task in d.tasks
  {
    forall t :: t in s ==> StepCounts(d, task, t) && StepDone(d, t)
  }

  /** The policy, said of a goal's tasks. */
  ghost predicate GoalMeets(d: Db, goal: Id, p: Policy, criterion: bool) {
    match p
    case AllRequired => (exists t :: TaskCounts(d, goal, t)) && forall t :: TaskCounts(d, goal, t) ==> TaskDone(d, t)
    case AnyRequired => exists t :: TaskCounts(d, goal, t) && TaskDone(d, t)
    case NOfM(n) => exists s: set<Id> :: AllCompleted(d, goal, s) && |s| >= n
    case Criterion => criterion
    case UnknownRule => false
  }

  /** The policy, said of the steps of a task's active plan. */
  ghost predicate TaskMeets(d: Db, task: Id, p: Policy, criterion: bool)
    requires task in d.tasks
  {
    match p
    case AllRequired => (exists s :: StepCounts(d, task, s)) && forall s :: StepCounts(d, task, s) ==> StepDone(d, s)
    case AnyRequired => exists s :: StepCounts(d, task, s) && StepDone(d, s)
    case NOfM(n) => exists s: set<Id> :: AllStepsDone(d, task, s) && |s| >= n
    case Criterion => criterion
    case UnknownRule => false
  }

  // ------------------------------------------------------------- comparing counts is comparing sets

  /** Every policy, as a statement about the children and those of them that satisfy it. */
  lemma PoliciesMean(kids: set<Id>, done: set<Id>, criterion: bool)
    requires done <= kids
    ensures EvaluateCompletion(AllRequired, |kids|, |done|, criterion) <==> kids != {} && done == kids
    ensures EvaluateCompletion(AnyRequired, |kids|, |done|, criterion) <==> done != {}
    ensures forall n :: EvaluateCompletion(NOfM(n), |kids|, |done|, criterion) <==> AtLeast(done, n)
    ensures EvaluateCompletion(Criterion, |kids|, |done|, criterion) <==> criterion
    ensures !EvaluateCompletion(UnknownRule, |kids|, |done|, criterion)
  {
    SubsetCount(done, kids);
    forall n ensures EvaluateCompletion(NOfM(n), |kids|, |done|, criterion) <==> AtLeast(done, n) {
      AtLeastCounts(done, n);
    }
  }

  /** Some n of them can be picked. */
  ghost predicate AtLeast(done: set<Id>, n: int) { exists s: set<Id> :: s <= done && |s| >= n }

  lemma AtLeastCounts(done: set<Id>, n: int)
    ensures AtLeast(done, n) <==> |done| >= n
  {
    if AtLeast(done, n) {
      var s: set<Id> :| s <= done && |s| >= n;
      SubsetCount(s, done);
    }
    if |done| >= n { assert done <= done; }
  }

  lemma GoalPolicy(d: Db, goal: Id, p: Policy, criterion: bool)
    ensures EvaluateCompletion(p, |GoalChildren(d, goal)|, |TasksDone(d, GoalChildren(d, goal))|, criterion)
       <==> GoalMeets(d, goal, p, criterion)
  {
    hide EvaluateCompletion;
    var kids := GoalChildren(d, goal);
    var done := TasksDone(d, kids);
    PoliciesMean(kids, done, criterion);
    assert forall t :: t in kids <==> TaskCounts(d, goal, t);
    assert forall t :: t in done <==> TaskCounts(d, goal, t) && TaskDone(d, t);
    assert forall s: set<Id> :: s <= done <==> AllCompleted(d, goal, s);
  }

  lemma TaskPolicy(d: Db, task: Id, p: Policy, criterion: bool)
    requires task in d.tasks
    ensures var kids := TaskChildren(d, d.tasks[task]);
            EvaluateCompletion(p, |kids|, |StepsDone(d, kids)|, criterion) <==> TaskMeets(d, task, p, criterion)
  {
    hide EvaluateCompletion;
    var kids := TaskChildren(d, d.tasks[task]);
    var done := StepsDone(d, kids);
    PoliciesMean(kids, done, criterion);
    assert forall s :: s in kids <==> StepCounts(d, task, s);
    assert forall s :: s in done <==> StepCounts(d, task, s) && StepDone(d, s);
    assert forall s: set<Id> :: s <= done <==> AllStepsDone(d, task, s);
  }

  // ----------------------------------------------------------------------------- theorems

  /** Every verification the object is bound to is PASS. */
  ghost predicate BindingsPass(d: Db, obj: Id) {
    forall v :: (obj, v) in d.required ==> v in d.verifications && d.verifications[v].result == VPass
  }

  lemma BindingsAreAll(d: Db, obj: Id)
    ensures AllRequiredPass(d, obj) <==> BindingsPass(d, obj)
  {
    if BindingsPass(d, obj) {
      forall b | b in d.required && b.0 == obj ensures b.1 in d.verifications && d.verifications[b.1].result == VPass {
        assert (obj, b.1) in d.required;
      }
    }
    if AllRequiredPass(d, obj) {
      forall v | (obj, v) in d.required ensures v in d.verifications && d.verifications[v].result == VPass {
        var b := (obj, v);
        assert b in d.required && b.0 == obj;
      }
    }
  }

  /** A goal is completed exactly at the expected revision, sound, not yet terminal, with its policy met by its tasks and
      every binding PASS. It is then COMPLETED; other than its row only the obligations move. */
  lemma GoalCompletesIff(d: Db, goal: Id, expected: nat, criterion: bool)
    requires goal in d.goals
    ensures var g, r := d.goals[goal], Work.Apply(d, Complete(goal, expected, criterion));
            r.res.Ok? <==>
              && g.revision == expected && g.integrity == Sound && g.status !in {GCompleted, GCancelled, GArchived}
              && GoalMeets(d, goal, g.policy, criterion) && BindingsPass(d, goal)
    ensures var g, r := d.goals[goal], Work.Apply(d, Complete(goal, expected, criterion));
            r.db == if r.res.Ok?
                    then d.(goals := d.goals[goal := g.(status := GCompleted, revision := expected + 1)],
                            obligations := r.db.obligations)
                    else d
  {
    hide GoalChildren, TasksDone, EvaluateCompletion, AllRequiredPass, GoalMeets, BindingsPass, MoveSubtree, Subtree;
    GoalPolicy(d, goal, d.goals[goal].policy, criterion);
    BindingsAreAll(d, goal);
  }

  /** A task likewise, by the steps of its active plan; its pointer is cleared. */
  lemma TaskCompletesIff(d: Db, task: Id, expected: nat, criterion: bool)
    requires task in d.tasks && task !in d.goals
    ensures var t, r := d.tasks[task], Work.Apply(d, Complete(task, expected, criterion));
            r.res.Ok? <==>
              && t.revision == expected && t.integrity == Sound && t.status !in {TCompleted, TFailed, TCancelled, TArchived}
              && TaskMeets(d, task, t.policy, criterion) && BindingsPass(d, task)
    ensures var t, r := d.tasks[task], Work.Apply(d, Complete(task, expected, criterion));
            r.db == if r.res.Ok?
                    then d.(tasks := d.tasks[task := t.(status := TCompleted, activePlan := None, revision := expected + 1)],
                            obligations := r.db.obligations)
                    else d
  {
    hide TaskChildren, StepsDone, EvaluateCompletion, AllRequiredPass, TaskMeets, BindingsPass, MoveSubtree, Subtree;
    TaskPolicy(d, task, d.tasks[task].policy, criterion);
    BindingsAreAll(d, task);
  }

  /** Nothing but a goal or a task is ever completed by it. */
  lemma OnlyGoalsAndTasksComplete(d: Db, obj: Id, expected: nat, criterion: bool)
    requires obj !in d.goals && obj !in d.tasks
    ensures var r := Work.Apply(d, Complete(obj, expected, criterion)); !r.res.Ok? && r.db == d
  {
  }

  /** A task completed under ALL_REQUIRED had an active plan with a step left uncancelled, all such steps done, and
      every bound verification passed. */
  lemma AllRequiredCompletion(d: Db, task: Id, expected: nat, criterion: bool)
    requires task in d.tasks && task !in d.goals && d.tasks[task].policy == AllRequired
    requires CompleteTx(d, task, expected, criterion).res.Ok?
    ensures d.tasks[task].activePlan.Some?
    ensures var steps := PlanSteps(d, d.tasks[task].activePlan.value);
            steps != {} && forall s :: s in steps ==> StepDone(d, s)
    ensures forall v :: (task, v) in d.required ==> v in d.verifications && d.verifications[v].result == VPass
  {
    hide CompleteTx;
    TaskCompletesIff(d, task, expected, criterion);
    var s :| StepCounts(d, task, s);
    assert s in PlanSteps(d, d.tasks[task].activePlan.value);
    forall s | s in PlanSteps(d, d.tasks[task].activePlan.value) ensures StepDone(d, s) {
      assert StepCounts(d, task, s);
    }
  }
}
