/** Freezing (v5/work.py:837-864): what a freeze protects, and until when. */
module Freezing {
  import opened Types
  import opened Execution
  import opened EvidencePipeline
  import opened Work
  import opened Invariants
  import opened RowWrites
  import opened Frames
  import opened Kernel
  import opened RunProofs
  import opened RunTheorems
  import opened Theorems

  predicate GoalProtected(x: Goal, y: Goal) { x.integrity != Sound ==> y.integrity != Sound && y.status == x.status }

  predicate GoalsProtected(a: map<Id, Goal>, b: map<Id, Goal>) {
    forall i :: i in a ==> i in b && GoalProtected(a[i], b[i])
  }

  lemma GoalWritten(a: map<Id, Goal>, id: Id, row: Goal)
    requires id in a ==> GoalProtected(a[id], row)
    ensures GoalsProtected(a, a[id := row]) && GoalsProtected(a, a)
  {
  }

  predicate TaskProtected(x: Task, y: Task) { x.integrity != Sound ==> y.integrity != Sound && y.status == x.status }

  predicate TasksProtected(a: map<Id, Task>, b: map<Id, Task>) {
    forall i :: i in a ==> i in b && TaskProtected(a[i], b[i])
  }

  lemma TaskWritten(a: map<Id, Task>, id: Id, row: Task)
    requires id in a ==> TaskProtected(a[id], row)
    ensures TasksProtected(a, a[id := row]) && TasksProtected(a, a)
  {
  }

  predicate Protected(a: Db, b: Db) { GoalsProtected(a.goals, b.goals) && TasksProtected(a.tasks, b.tasks) }

  lemma Untouched(d: Db, d': Db)
    requires d'.goals == d.goals && d'.tasks == d.tasks
    ensures Protected(d, d')
  {
  }

  lemma GoalWrite(d: Db, d': Db, id: Id, g: Goal)
    requires d'.goals == d.goals[id := g] && d'.tasks == d.tasks && (id in d.goals ==> GoalProtected(d.goals[id], g))
    ensures Protected(d, d')
  {
    GoalWritten(d.goals, id, g);
  }

  lemma TaskWrite(d: Db, d': Db, id: Id, t: Task)
    requires d'.tasks == d.tasks[id := t] && d'.goals == d.goals && (id in d.tasks ==> TaskProtected(d.tasks[id], t))
    ensures Protected(d, d')
  {
    TaskWritten(d.tasks, id, t);
  }

  // ------------------------------------------------------------- the calls that write them

  lemma CompletedGoalProtects(d: Db, x: Id, e: nat, k: bool)
    requires CompleteTx(d, x, e, k).res.Ok? && x in d.goals
    ensures Protected(d, CompleteTx(d, x, e, k).db)
  {
    hide Protected, EvaluateCompletion, AllRequiredPass, TaskChildren, GoalChildren, StepsDone, TasksDone, TerminalCommit;
    GoalWrite(d, CompleteTx(d, x, e, k).db, x, d.goals[x].(status := GCompleted, revision := d.goals[x].revision + 1));
  }

  lemma CompletedTaskProtects(d: Db, x: Id, e: nat, k: bool)
    requires CompleteTx(d, x, e, k).res.Ok? && x !in d.goals
    ensures Protected(d, CompleteTx(d, x, e, k).db)
  {
    hide Protected, EvaluateCompletion, AllRequiredPass, TaskChildren, GoalChildren, StepsDone, TasksDone, TerminalCommit;
    TaskWrite(d, CompleteTx(d, x, e, k).db, x,
              d.tasks[x].(status := TCompleted, activePlan := None, revision := d.tasks[x].revision + 1));
  }

  lemma EndedGoalProtects(d: Db, x: Id, s: WorkStatus, e: nat)
    requires TerminateTx(d, x, s, e).res.Ok? && x in d.goals
    ensures Protected(d, TerminateTx(d, x, s, e).db)
  {
    hide Protected, TerminalCommit, GoalNext, TaskNext;
    GoalWrite(d, TerminateTx(d, x, s, e).db, x, d.goals[x].(status := s.goal, revision := d.goals[x].revision + 1));
  }

  lemma EndedTaskProtects(d: Db, x: Id, s: WorkStatus, e: nat)
    requires TerminateTx(d, x, s, e).res.Ok? && x !in d.goals
    ensures Protected(d, TerminateTx(d, x, s, e).db)
  {
    hide Protected, TerminalCommit, GoalNext, TaskNext;
    TaskWrite(d, TerminateTx(d, x, s, e).db, x,
              d.tasks[x].(status := s.task, activePlan := None, revision := d.tasks[x].revision + 1));
  }

  lemma TerminateProtects(d: Db, x: Id, s: WorkStatus, e: nat)
    requires TerminateTx(d, x, s, e).res.Ok?
    ensures Protected(d, TerminateTx(d, x, s, e).db)
  {
    hide Protected, TerminateTx;
    if x in d.goals { EndedGoalProtects(d, x, s, e); } else { EndedTaskProtects(d, x, s, e); }
  }

  lemma TransitionProtects(d: Db, x: Id, s: WorkStatus, e: nat)
    requires TransitionTx(d, x, s, e).res.Ok?
    ensures Protected(d, TransitionTx(d, x, s, e).db)
  {
    hide Protected, TransitionTx;
    match Load(d, x)
    case AGoal(_) => GoalTransitionProtects(d, x, s, e);
    case ATask(_) => TaskTransitionProtects(d, x, s, e);
    case _ => OtherTransitionProtects(d, x, s, e);
  }

  lemma GoalTransitionProtects(d: Db, x: Id, s: WorkStatus, e: nat)
    requires TransitionTx(d, x, s, e).res.Ok? && Load(d, x).AGoal?
    ensures Protected(d, TransitionTx(d, x, s, e).db)
  {
    hide Protected, GoalNext;
    GoalWrite(d, TransitionTx(d, x, s, e).db, x, d.goals[x].(status := s.goal, revision := d.goals[x].revision + 1));
  }

  lemma TaskTransitionProtects(d: Db, x: Id, s: WorkStatus, e: nat)
    requires TransitionTx(d, x, s, e).res.Ok? && Load(d, x).ATask?
    ensures Protected(d, TransitionTx(d, x, s, e).db)
  {
    hide Protected, TaskNext;
    TaskWrite(d, TransitionTx(d, x, s, e).db, x, d.tasks[x].(status := s.task, revision := d.tasks[x].revision + 1));
  }

  lemma OtherTransitionProtects(d: Db, x: Id, s: WorkStatus, e: nat)
    requires TransitionTx(d, x, s, e).res.Ok? && !Load(d, x).AGoal? && !Load(d, x).ATask?
    ensures Protected(d, TransitionTx(d, x, s, e).db)
  {
    hide Protected, PlanNext, StepNext;
    Untouched(d, TransitionTx(d, x, s, e).db);
  }

  /** Freezing as a write: the row with its integrity FROZEN, or nothing when it already is. */
  lemma FreezeIsAWrite(d: Db, x: Id)
    ensures var d' := FreezeObjectTx(d, x).db;
            match Load(d, x)
            case AGoal(g) =>
              d' == if g.integrity == Frozen then d
                    else d.(goals := d.goals[x := g.(integrity := Frozen, revision := g.revision + 1)])
            case ATask(t) =>
              d' == if t.integrity == Frozen then d
                    else d.(tasks := d.tasks[x := t.(integrity := Frozen, revision := t.revision + 1)])
            case _ => d' == d
  {
  }

  lemma FreezeProtects(d: Db, x: Id)
    ensures Protected(d, FreezeObjectTx(d, x).db)
  {
    hide Protected, FreezeObjectTx;
    FreezeIsAWrite(d, x);
    Untouched(d, d);
    match Load(d, x)
    case AGoal(g) =>
      var g' := g.(integrity := Frozen, revision := g.revision + 1);
      GoalWrite(d, d.(goals := d.goals[x := g']), x, g');
    case ATask(t) =>
      var t' := t.(integrity := Frozen, revision := t.revision + 1);
      TaskWrite(d, d.(tasks := d.tasks[x := t']), x, t');
    case _ =>
  }

  lemma CreationProtects(d: Db, c: WorkCall)
    requires Inv(d) && (c.CreateGoal? || c.CreateTask?)
    ensures Protected(d, Work.Apply(d, c).db)
  {
    hide Inv, Protected;
    MintedKeys(d);
    Untouched(d, d);
    var r := Work.Apply(d, c);
    if c.CreateGoal? {
      GoalWrite(d, r.db, Id(GoalK, d.next), Goal(0, GActive, c.policy, Sound));
    } else if r.res.Ok? {
      TaskWrite(d, r.db, Id(TaskK, d.next), Task(0, c.goal, TPending, None, c.policy, c.maxAttempts, c.attemptsUsed, Sound));
    }
  }

  lemma PointerProtects(d: Db, c: WorkCall)
    requires (c.ActivatePlan? || c.SupersedePlan?) && Work.Apply(d, c).res.Ok?
    ensures Protected(d, Work.Apply(d, c).db)
  {
    hide Protected;
    var p := if c.ActivatePlan? then c.plan else c.newPlan;
    TaskWrite(d, Work.Apply(d, c).db, c.task, d.tasks[c.task].(activePlan := Some(p), revision := d.tasks[c.task].revision + 1));
  }

  lemma WorkProtects(d: Db, c: WorkCall)
    requires Inv(d) && Work.Apply(d, c).res.Ok?
    ensures Protected(d, Work.Apply(d, c).db)
  {
    hide Inv, Protected, CreateGoalTx, CreateTaskTx, CreatePlanTx, CreateStepTx, AddDependencyTx, CreatePlanWithStepsTx,
         ActivatePlanTx, SupersedePlanTx, BindTx, CompleteTx, TerminateTx, ArchiveTx, TransitionTx, CompleteStepTx, FreezeObjectTx;
    match c
    case CreateGoal(_) => CreationProtects(d, c);
    case CreateTask(_, _, _, _, _) => CreationProtects(d, c);
    case ActivatePlan(_, _, _) => PointerProtects(d, c);
    case SupersedePlan(_, _, _, _) => PointerProtects(d, c);
    case Complete(x, e, k) =>
      if x in d.goals { CompletedGoalProtects(d, x, e, k); } else { CompletedTaskProtects(d, x, e, k); }
    case CancelTask(x, e) => TerminateProtects(d, x, OfTask(TCancelled), e);
    case CancelGoal(x, e) => TerminateProtects(d, x, OfGoal(GCancelled), e);
    case Archive(x, e) => ArchiveProtects(d, x, e);
    case Transition(x, s, e) => TransitionProtects(d, x, s, e);
    case FreezeObject(x) => FreezeProtects(d, x);
    case _ => Untouched(d, Work.Apply(d, c).db);
  }

  lemma ArchiveProtects(d: Db, x: Id, e: nat)
    requires ArchiveTx(d, x, e).res.Ok?
    ensures Protected(d, ArchiveTx(d, x, e).db)
  {
    hide Protected, TerminateTx;
    TerminateProtects(d, x, if Load(d, x).AGoal? then OfGoal(GArchived) else OfTask(TArchived), e);
  }

  lemma RetryProtects(d: Db, a: Id, e: nat)
    requires RetryTx(d, a, e).res.Ok?
    ensures Protected(d, RetryTx(d, a, e).db)
  {
    hide Protected, OwningTask;
    var t := OwningTask(d, d.actions[a]).value;
    TaskWrite(d, RetryTx(d, a, e).db, t,
              d.tasks[t].(attemptsUsed := d.tasks[t].attemptsUsed + 1, revision := d.tasks[t].revision + 1));
  }

  lemma ActionProtects(d: Db, c: ActionCall)
    ensures Protected(d, Execution.Apply(d, c).db)
  {
    hide Protected, CreateActionTx, BeginTx, MarkObservedTx, MarkUnknownTx, MarkFailedTx, CancelActionTx, RetryTx,
         FreezeActionTx;
    if c.Retry? && RetryTx(d, c.action, c.expectedTask).res.Ok? {
      RetryProtects(d, c.action, c.expectedTask);
    } else if c.Retry? {
      RefusedRetry(d, c.action, c.expectedTask);
      Untouched(d, Execution.Apply(d, c).db);
    } else {
      Untouched(d, Execution.Apply(d, c).db);
    }
  }

  lemma RefusedRetry(d: Db, a: Id, e: nat)
    requires !RetryTx(d, a, e).res.Ok?
    ensures RetryTx(d, a, e).db == d
  {
    hide OwningTask;
  }

  lemma CallProtects(d: Db, c: Call)
    requires Inv(d) && !c.OfRepair?
    ensures Protected(d, Perform(d, c).db)
  {
    hide Inv, Protected, Work.Apply, Execution.Apply, EvidencePipeline.Apply, Obligations.Apply, Safety.Apply;
    match c
    case OfWork(x) =>
      if Work.Apply(d, x).res.Ok? {
        WorkProtects(d, x);
      } else {
        WorkRefused(d, x);
        Untouched(d, Perform(d, c).db);
      }
    case OfAction(x) => ActionProtects(d, x);
    case OfEvidence(x) =>
      EvidenceFrame(d, x);
      Untouched(d, Perform(d, c).db);
    case _ => Untouched(d, Perform(d, c).db);
  }

  lemma WorkRefused(d: Db, c: WorkCall)
    requires !Work.Apply(d, c).res.Ok?
    ensures Work.Apply(d, c).db == d
  {
    hide CompleteTx, TerminateTx, TransitionTx, ArchiveTx, CreatePlanWithStepsTx;
  }

  lemma InnerProtects(d: Db, c: Option<ActionCall>)
    ensures Protected(d, Committed(d, c))
  {
    hide Protected, Execution.Apply;
    Untouched(d, d);
    if c.Some? { ActionProtects(d, c.value); }
  }

  lemma StepProtects(w: World, l: Label)
    requires Inv(w.db) && !IsRepair(l)
    ensures Protected(w.db, Next(w, l).db)
  {
    hide Inv, Protected, Next, Perform, Committed, GateFault, ClaimExists, StartVerificationTx, FinishVerificationTx;
    Untouched(w.db, w.db);
    StepCommits(w, l);
    match l
    case Do(c) => CallProtects(w.db, c);
    case VerifyStart(_, _, _) => Untouched(w.db, Next(w, l).db);
    case VerifyEnd(_, _) => Untouched(w.db, Next(w, l).db);
    case _ => InnerProtects(w.db, Inner(w, l));
  }

  lemma ProtectedTransitive(a: Db, b: Db, c: Db)
    requires Protected(a, b) && Protected(b, c)
    ensures Protected(a, c)
  {
    forall i | i in a.goals ensures i in c.goals && GoalProtected(a.goals[i], c.goals[i]) {
      assert GoalProtected(a.goals[i], b.goals[i]) && GoalProtected(b.goals[i], c.goals[i]);
    }
    forall i | i in a.tasks ensures i in c.tasks && TaskProtected(a.tasks[i], c.tasks[i]) {
      assert TaskProtected(a.tasks[i], b.tasks[i]) && TaskProtected(b.tasks[i], c.tasks[i]);
    }
  }

  lemma {:induction false} RunProtects(w: World, labels: seq<Label>)
    requires Reachable(w) && RepairFree(labels)
    ensures Protected(w.db, Run(w, labels).db)
    decreases |labels|
  {
    hide Inv, StartsOk, EffectsOk, WorkersOk, Reachable, Next, Protected;
    if labels == [] {
      Untouched(w.db, w.db);
    } else {
      var before := labels[..|labels| - 1];
      RunProtects(w, before);
      Onward(w, before);
      ReachableOk(Run(w, before));
      StepProtects(Run(w, before), labels[|labels| - 1]);
      ProtectedTransitive(w.db, Run(w, before).db, Run(w, labels).db);
    }
  }

  // ------------------------------------------------------------------------- theorems

  /** From any point of any run on, until somebody repairs: a goal or task whose integrity is not sound keeps its status. */
  lemma {:induction false} FrozenKeepsStatus(w: World, labels: seq<Label>, x: Id)
    requires Reachable(w) && RepairFree(labels)
    ensures var d, d' := w.db, Run(w, labels).db;
            && (x in d.goals && d.goals[x].integrity != Sound ==>
                  x in d'.goals && d'.goals[x].integrity != Sound && d'.goals[x].status == d.goals[x].status)
            && (x in d.tasks && d.tasks[x].integrity != Sound ==>
                  x in d'.tasks && d'.tasks[x].integrity != Sound && d'.tasks[x].status == d.tasks[x].status)
  {
    hide Run, Reachable;
    RunProtects(w, labels);
  }

  /** x, a goal or task before, has the status it had and is not sound. */
  predicate KeptFrozen(d: Db, d': Db, x: Id) {
    && (x in d.goals ==> x in d'.goals && d'.goals[x].status == d.goals[x].status && d'.goals[x].integrity != Sound)
    && (x in d.tasks ==> x in d'.tasks && d'.tasks[x].status == d.tasks[x].status && d'.tasks[x].integrity != Sound)
  }

  lemma FreezeFreezes(d: Db, x: Id)
    requires Inv(d)
    ensures KeptFrozen(d, FreezeObjectTx(d, x).db, x)
  {
    hide Inv, FreezeObjectTx, KeptFrozen;
    assert !(x in d.goals && x in d.tasks) by { MintedKeys(d); }
    FreezeIsAWrite(d, x);
    if x in d.goals {
      GoalIsFrozen(d, FreezeObjectTx(d, x).db, x);
    } else if x in d.tasks {
      TaskIsFrozen(d, FreezeObjectTx(d, x).db, x);
    } else {
      NothingFrozen(d, FreezeObjectTx(d, x).db, x);
    }
  }

  lemma GoalIsFrozen(d: Db, d': Db, x: Id)
    requires x in d.goals && x !in d.tasks
    requires d' == if d.goals[x].integrity == Frozen then d
                   else d.(goals := d.goals[x := d.goals[x].(integrity := Frozen, revision := d.goals[x].revision + 1)])
    ensures KeptFrozen(d, d', x)
  {
  }

  lemma TaskIsFrozen(d: Db, d': Db, x: Id)
    requires x in d.tasks && x !in d.goals
    requires d' == if d.tasks[x].integrity == Frozen then d
                   else d.(tasks := d.tasks[x := d.tasks[x].(integrity := Frozen, revision := d.tasks[x].revision + 1)])
    ensures KeptFrozen(d, d', x)
  {
  }

  lemma NothingFrozen(d: Db, d': Db, x: Id)
    requires x !in d.goals && x !in d.tasks
    ensures KeptFrozen(d, d', x)
  {
  }

  lemma FreezeStep(w: World, x: Id)
    ensures Next(w, Do(OfWork(FreezeObject(x)))).db == FreezeObjectTx(w.db, x).db
  {
    hide FreezeObjectTx;
  }

  lemma FreezeAccepts(d: Db, x: Id)
    requires Inv(d)
    ensures FreezeObjectTx(d, x).res.Ok? <==> x in d.goals || x in d.tasks
  {
    hide Inv;
  }

  lemma KeptFrozenOn(a: Db, b: Db, c: Db, x: Id)
    requires KeptFrozen(a, b, x) && Protected(b, c)
    ensures KeptFrozen(a, c, x)
  {
  }

  /** freeze_object commits exactly on a goal or task, changes no status, and from then on nothing but a repair does: not
      even when the object was given up as unrepairable before. */
  lemma {:induction false} FreezeHolds(w: World, x: Id, labels: seq<Label>)
    requires Reachable(w) && RepairFree(labels)
    ensures FreezeObjectTx(w.db, x).res.Ok? <==> x in w.db.goals || x in w.db.tasks
    ensures KeptFrozen(w.db, Run(Next(w, Do(OfWork(FreezeObject(x)))), labels).db, x)
  {
    hide Inv, StartsOk, EffectsOk, WorkersOk, Run, Next, Reachable, KeptFrozen, Protected, FreezeObjectTx;
    ReachableOk(w);
    FreezeFreezes(w.db, x);
    FreezeAccepts(w.db, x);
    var l := Do(OfWork(FreezeObject(x)));
    FreezeStep(w, x);
    RunOne(w, l);
    Onward(w, [l]);
    RunProtects(Next(w, l), labels);
    KeptFrozenOn(w.db, Next(w, l).db, Run(Next(w, l), labels).db, x);
  }
}
