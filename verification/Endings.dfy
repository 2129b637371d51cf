/** Status changes of goals, tasks, plans and steps (v5/enums.py:121-197, v5/work.py:713-830): which are open from where, read
    backwards from the status they lead to, and what each of them writes. */
module Endings {
  import opened Types
  import opened Obligations
  import opened Work
  import opened Invariants
  import opened RowWrites
  import opened Transfers

  // ------------------------------------------------------- where each status is entered from

  function GoalBefore(s: GoalStatus): set<GoalStatus> {
    match s
    case GActive => {GPaused, GBlocked}
    case GPaused => {GActive}
    case GBlocked => {GActive}
    case GCompleted => {GActive, GPaused}
    case GCancelled => {GActive, GPaused, GBlocked}
    case GArchived => {GActive, GPaused}
  }

  function TaskBefore(s: TaskStatus): set<TaskStatus> {
    match s
    case TPending => {}
    case TActive => {TPending, TPaused, TBlocked}
    case TBlocked => {TActive}
    case TPaused => {TActive}
    case TCompleted => {TActive, TPaused}
    case TFailed => {TPending, TActive}
    case TCancelled => {TPending, TActive, TPaused, TBlocked}
    case TArchived => {TPending, TActive, TPaused}
  }

  function PlanBefore(s: PlanStatus): set<PlanStatus> {
    match s
    case PDraft => {PBlocked}
    case PCancelled => {PDraft, PBlocked}
    case _ => {PDraft}
  }

  function StepBefore(s: StepStatus): set<StepStatus> {
    match s
    case SPending => {}
    case SReady => {SPending, SBlocked}
    case SExecuting => {SReady}
    case SBlocked => {SPending, SReady, SExecuting}
    case SCompleted => {SExecuting}
    case SFailed => {SReady, SExecuting}
    case SCancelled => {SPending, SReady, SExecuting, SBlocked}
    case SSkipped => {SPending, SReady, SBlocked}
  }

  function ActionBefore(s: ActionStatus): set<ActionStatus> {
    match s
    case APending => {}
    case AExecuting => {APending}
    case ACancelled => {APending, AExecuting}
    case _ => {AExecuting}
  }

  /** Forwards and backwards the tables say the same. */
  lemma TablesAgree()
    ensures forall a, b :: b in GoalNext(a) <==> a in GoalBefore(b)
    ensures forall a, b :: b in TaskNext(a) <==> a in TaskBefore(b)
    ensures forall a, b :: b in PlanNext(a) <==> a in PlanBefore(b)
    ensures forall a, b :: b in StepNext(a) <==> a in StepBefore(b)
    ensures forall a, b :: b in ActionNext(a) <==> a in ActionBefore(b)
  {
    forall a, b ensures b in ActionNext(a) <==> a in ActionBefore(b) { ActionTables(a, b); }
    forall a, b ensures b in GoalNext(a) <==> a in GoalBefore(b) { GoalTables(a, b); }
    forall a, b ensures b in TaskNext(a) <==> a in TaskBefore(b) { TaskTables(a, b); }
    forall a, b ensures b in PlanNext(a) <==> a in PlanBefore(b) { PlanTables(a, b); }
    forall a, b ensures b in StepNext(a) <==> a in StepBefore(b) { StepTables(a, b); }
  }

  lemma GoalTables(a: GoalStatus, b: GoalStatus)
    ensures b in GoalNext(a) <==> a in GoalBefore(b)
  {
  }

  lemma TaskTables(a: TaskStatus, b: TaskStatus)
    ensures b in TaskNext(a) <==> a in TaskBefore(b)
  {
  }

  lemma PlanTables(a: PlanStatus, b: PlanStatus)
    ensures b in PlanNext(a) <==> a in PlanBefore(b)
  {
  }

  lemma StepTables(a: StepStatus, b: StepStatus)
    ensures b in StepNext(a) <==> a in StepBefore(b)
  {
  }

  lemma ActionTables(a: ActionStatus, b: ActionStatus)
    ensures b in ActionNext(a) <==> a in ActionBefore(b)
  {
  }

  /** The terminal statuses are exactly those no table row leads out of. */
  lemma TerminalMeansNoWayOut()
    ensures forall s :: GoalTerminal(s) <==> forall t :: s !in GoalBefore(t)
    ensures forall s :: TaskTerminal(s) <==> forall t :: s !in TaskBefore(t)
    ensures forall s :: PlanTerminal(s) <==> forall t :: s !in PlanBefore(t)
    ensures forall s :: StepTerminal(s) <==> forall t :: s !in StepBefore(t)
    ensures forall s :: ActionTerminal(s) <==> forall t :: s !in ActionBefore(t)
  {
    forall s ensures GoalTerminal(s) <==> forall t :: s !in GoalBefore(t) { GoalEnd(s); }
    forall s ensures TaskTerminal(s) <==> forall t :: s !in TaskBefore(t) { TaskEnd(s); }
    forall s ensures PlanTerminal(s) <==> forall t :: s !in PlanBefore(t) { PlanEnd(s); }
    forall s ensures StepTerminal(s) <==> forall t :: s !in StepBefore(t) { StepEnd(s); }
    forall s ensures ActionTerminal(s) <==> forall t :: s !in ActionBefore(t) { ActionEnd(s); }
  }

  lemma GoalEnd(s: GoalStatus)
    ensures GoalTerminal(s) <==> forall t :: s !in GoalBefore(t)
  {
    assert s in GoalBefore(GCancelled) || GoalTerminal(s);
  }

  lemma TaskEnd(s: TaskStatus)
    ensures TaskTerminal(s) <==> forall t :: s !in TaskBefore(t)
  {
    assert s in TaskBefore(TCancelled) || TaskTerminal(s);
  }

  lemma PlanEnd(s: PlanStatus)
    ensures PlanTerminal(s) <==> forall t :: s !in PlanBefore(t)
  {
    assert s in PlanBefore(PCancelled) || PlanTerminal(s);
  }

  lemma StepEnd(s: StepStatus)
    ensures StepTerminal(s) <==> forall t :: s !in StepBefore(t)
  {
    assert s in StepBefore(SCancelled) || StepTerminal(s);
  }

  lemma ActionEnd(s: ActionStatus)
    ensures ActionTerminal(s) <==> forall t :: s !in ActionBefore(t)
  {
    assert s in ActionBefore(ACancelled) || ActionTerminal(s);
  }

  // -------------------------------------------------------------------------- transition_object

  /** x is at this revision, of the target's kind, sound where it has an integrity, and the target can be entered from the
      status it has. */
  predicate CanMove(d: Db, x: Id, target: WorkStatus, expected: nat) {
    match target
    case OfGoal(s) =>
      x in d.goals && d.goals[x].revision == expected && d.goals[x].integrity == Sound && d.goals[x].status in GoalBefore(s)
    case OfTask(s) =>
      x in d.tasks && d.tasks[x].revision == expected && d.tasks[x].integrity == Sound && d.tasks[x].status in TaskBefore(s)
    case OfPlan(s) => x in d.plans && d.plans[x].revision == expected && d.plans[x].status in PlanBefore(s)
    case OfStep(s) => x in d.steps && d.steps[x].revision == expected && d.steps[x].status in StepBefore(s)
  }

  /** The status of x, one revision up, and nothing else. */
  function Moved(d: Db, x: Id, target: WorkStatus): Db {
    match target
    case OfGoal(s) =>
      if x in d.goals then d.(goals := d.goals[x := d.goals[x].(status := s, revision := d.goals[x].revision + 1)]) else d
    case OfTask(s) =>
      if x in d.tasks then d.(tasks := d.tasks[x := d.tasks[x].(status := s, revision := d.tasks[x].revision + 1)]) else d
    case OfPlan(s) =>
      if x in d.plans then d.(plans := d.plans[x := d.plans[x].(status := s, revision := d.plans[x].revision + 1)]) else d
    case OfStep(s) =>
      if x in d.steps then d.(steps := d.steps[x := d.steps[x].(status := s, revision := d.steps[x].revision + 1)]) else d
  }

  /** The transition transaction does what the tables, read backwards, say. */
  ghost predicate MovesExactly(d: Db, x: Id, target: WorkStatus, expected: nat) {
    var r := TransitionTx(d, x, target, expected);
    && (r.res.Ok? <==> CanMove(d, x, target, expected))
    && r.db == if r.res.Ok? then Moved(d, x, target) else d
  }

  lemma GoalMoves(d: Db, x: Id, target: WorkStatus, expected: nat)
    requires Load(d, x).AGoal? && x !in d.tasks && x !in d.plans && x !in d.steps
    ensures MovesExactly(d, x, target, expected)
  {
    hide GoalNext, GoalBefore;
    if target.OfGoal? { GoalTables(d.goals[x].status, target.goal); }
  }

  lemma TaskMoves(d: Db, x: Id, target: WorkStatus, expected: nat)
    requires Load(d, x).ATask? && x !in d.goals && x !in d.plans && x !in d.steps
    ensures MovesExactly(d, x, target, expected)
  {
    hide TaskNext, TaskBefore;
    if target.OfTask? { TaskTables(d.tasks[x].status, target.task); }
  }

  lemma PlanMoves(d: Db, x: Id, target: WorkStatus, expected: nat)
    requires Load(d, x).APlan? && x !in d.goals && x !in d.tasks && x !in d.steps
    ensures MovesExactly(d, x, target, expected)
  {
    hide PlanNext, PlanBefore;
    if target.OfPlan? { PlanTables(d.plans[x].status, target.plan); }
  }

  lemma StepMoves(d: Db, x: Id, target: WorkStatus, expected: nat)
    requires Load(d, x).AStep? && x !in d.goals && x !in d.tasks && x !in d.plans
    ensures MovesExactly(d, x, target, expected)
  {
    hide StepNext, StepBefore;
    if target.OfStep? { StepTables(d.steps[x].status, target.step); }
  }

  lemma NothingElseMoves(d: Db, x: Id, target: WorkStatus, expected: nat)
    requires x !in d.goals && x !in d.tasks && x !in d.plans && x !in d.steps
    ensures MovesExactly(d, x, target, expected)
  {
  }

  /** The kinds of work objects are apart. */
  lemma OneKind(d: Db, x: Id)
    requires Inv(d)
    ensures x in d.goals ==> x !in d.tasks && x !in d.plans && x !in d.steps && x !in d.actions
    ensures x in d.tasks ==> x !in d.plans && x !in d.steps && x !in d.actions
    ensures x in d.plans ==> x !in d.steps && x !in d.actions
    ensures x in d.steps ==> x !in d.actions
  {
    hide Inv;
    MintedKeys(d);
  }

  /** transition_object commits exactly when x can move there, and writes that move alone: pointer and obligations stay. */
  lemma TransitionCommitsIff(d: Db, x: Id, target: WorkStatus, expected: nat)
    requires Inv(d)
    ensures var r := Work.Apply(d, Transition(x, target, expected));
            && (r.res.Ok? <==> CanMove(d, x, target, expected))
            && r.db == if r.res.Ok? then Moved(d, x, target) else d
  {
    hide Inv, TransitionTx, CanMove, Moved;
    OneKind(d, x);
    match Load(d, x)
    case AGoal(_) => GoalMoves(d, x, target, expected);
    case ATask(_) => TaskMoves(d, x, target, expected);
    case APlan(_) => PlanMoves(d, x, target, expected);
    case AStep(_) => StepMoves(d, x, target, expected);
    case _ => NothingElseMoves(d, x, target, expected);
  }

  /** complete_step commits exactly for an EXECUTING step at the expected revision. */
  lemma CompleteStepCommitsIff(d: Db, step: Id, expected: nat)
    ensures var r := Work.Apply(d, CompleteStep(step, expected));
            && (r.res.Ok? <==> CanMove(d, step, OfStep(SCompleted), expected))
            && r.db == if r.res.Ok? then Moved(d, step, OfStep(SCompleted)) else d
  {
  }

  // --------------------------------------------------------------------- cancelling, archiving

  /** x ended with this status: its row, with the pointer cleared when it is a task, and beside it only what was OPEN below
      it, handed over. */
  predicate EndsAs(d: Db, r: Tx, x: Id, target: WorkStatus) {
    && HandsAllOver(d, r, x)
    && match target
       case OfGoal(s) =>
         && x in d.goals
         && r.db == d.(goals := d.goals[x := d.goals[x].(status := s, revision := d.goals[x].revision + 1)],
                       obligations := r.db.obligations)
       case OfTask(s) =>
         && x in d.tasks
         && r.db == d.(tasks := d.tasks[x := d.tasks[x].(status := s, activePlan := None, revision := d.tasks[x].revision + 1)],
                       obligations := r.db.obligations)
       case _ => false
  }

  lemma TerminateGoal(d: Db, x: Id, s: GoalStatus, expected: nat)
    requires Inv(d)
    ensures var r := TerminateTx(d, x, OfGoal(s), expected);
            && (r.res.Ok? <==> CanMove(d, x, OfGoal(s), expected))
            && (if r.res.Ok? then EndsAs(d, r, x, OfGoal(s)) else r.db == d)
  {
    hide Inv, GoalNext, GoalBefore, HandsAllOver, MoveSubtree, Subtree;
    OneKind(d, x);
    if x in d.goals {
      GoalTables(d.goals[x].status, s);
      EndedGoal(d, x, s);
    }
  }

  lemma TerminateTask(d: Db, x: Id, s: TaskStatus, expected: nat)
    requires Inv(d)
    ensures var r := TerminateTx(d, x, OfTask(s), expected);
            && (r.res.Ok? <==> CanMove(d, x, OfTask(s), expected))
            && (if r.res.Ok? then EndsAs(d, r, x, OfTask(s)) else r.db == d)
  {
    hide Inv, TaskNext, TaskBefore, HandsAllOver, MoveSubtree, Subtree;
    OneKind(d, x);
    if x in d.tasks {
      TaskTables(d.tasks[x].status, s);
      EndedTask(d, x, s);
    }
  }

  /** cancel_task and cancel_goal: from any status a CANCELLED one can be entered from, sound and at the expected revision;
      CANCELLED, pointer cleared and everything OPEN below handed over, in one commit. */
  lemma CancelCommitsIff(d: Db, x: Id, expected: nat)
    requires Inv(d)
    ensures var r := Work.Apply(d, CancelTask(x, expected));
            && (r.res.Ok? <==> CanMove(d, x, OfTask(TCancelled), expected))
            && (if r.res.Ok? then EndsAs(d, r, x, OfTask(TCancelled)) else r.db == d)
    ensures var r := Work.Apply(d, CancelGoal(x, expected));
            && (r.res.Ok? <==> CanMove(d, x, OfGoal(GCancelled), expected))
            && (if r.res.Ok? then EndsAs(d, r, x, OfGoal(GCancelled)) else r.db == d)
  {
    hide Inv, TerminateTx, CanMove, EndsAs;
    TerminateTask(d, x, TCancelled, expected);
    TerminateGoal(d, x, GCancelled, expected);
  }

  /** archive_object: a goal or a task, never BLOCKED or already ended; ARCHIVED likewise. */
  lemma ArchiveCommitsIff(d: Db, x: Id, expected: nat)
    requires Inv(d)
    ensures var r := Work.Apply(d, Archive(x, expected));
            && (r.res.Ok? <==> CanMove(d, x, OfGoal(GArchived), expected) || CanMove(d, x, OfTask(TArchived), expected))
            && (if r.res.Ok? then EndsAs(d, r, x, if x in d.goals then OfGoal(GArchived) else OfTask(TArchived)) else r.db == d)
  {
    hide Inv, TerminateTx, EndsAs, GoalBefore, TaskBefore;
    OneKind(d, x);
    TerminateTask(d, x, TArchived, expected);
    TerminateGoal(d, x, GArchived, expected);
  }

  /** On a plan, step or action complete_object, cancel_task and cancel_goal raise where the revision is right, and are refused
      as stale where it is not; archive_object is refused. Nothing is written. */
  lemma OthersRaise(d: Db, x: Id, expected: nat, criterion: bool)
    requires x !in d.goals && x !in d.tasks && (x in d.plans || x in d.steps || x in d.actions)
    ensures var revision := if x in d.plans then d.plans[x].revision
                            else if x in d.steps then d.steps[x].revision else d.actions[x].revision;
            var answer := Tx(d, if revision == expected then Raised else Rejected(StaleRevision));
            && Work.Apply(d, Complete(x, expected, criterion)) == answer
            && Work.Apply(d, CancelTask(x, expected)) == answer
            && Work.Apply(d, CancelGoal(x, expected)) == answer
            && Work.Apply(d, Archive(x, expected)) == Reject(d, InvalidTransition)
  {
  }
}
