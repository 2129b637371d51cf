/** Terminal commits hand over exactly the open obligations below the object, and what completion required. */
module Transfers {
  import opened Types
  import opened Obligations
  import opened Work
  import opened Repair
  import opened Invariants
  import opened RowWrites
  import opened WorkProofs

  /** The OPEN obligations of a task, or of all tasks of a goal. */
  function OpenUnder(d: Db, obj: Id): set<Id> {
    set o | o in d.obligations && d.obligations[o].disposition == Open
            && (d.obligations[o].owner == Owned(obj) || OwnerUnderGoal(d, d.obligations[o].owner, obj))
  }

  /** The obligations of s go to the registry, stay OPEN and gain one transfer event; no other one is touched. */
  predicate HandsOver(d: Db, d': Db, s: set<Id>) {
    && d'.obligations.Keys == d.obligations.Keys
    && (forall o :: o in d.obligations && o !in s ==> d'.obligations[o] == d.obligations[o])
    && (forall o :: o in s ==>
          && o in d.obligations && d.obligations[o].disposition == Open && d.obligations[o].owner != Uor
          && d'.obligations[o] == d.obligations[o].(owner := Uor, revision := d.obligations[o].revision + 1,
               history := d.obligations[o].history + [Event(EvTransferred, d.obligations[o].owner, Some(Uor))]))
  }

  /** In a sound store the two-stage scan finds exactly these: an owner is a task, and no task is a goal's id. */
  lemma ScanIsExact(d: Db, obj: Id)
    requires Inv(d)
    ensures Subtree(d, obj) == OpenUnder(d, obj)
  {
    hide Inv;
    MintedKeys(d);
    InvHas(d, ObligationsSound);
    InvHas(d, TasksSound);
    forall o ensures o in Subtree(d, obj) <==> o in OpenUnder(d, obj) {
      if OwnedOpen(d, obj) != {} {
        var p :| p in OwnedOpen(d, obj);
        assert obj in d.tasks;
      } else {
        assert o !in OwnedOpen(d, obj);
      }
    }
  }

  /** The commit every terminal operation ends with, for whatever row it wrote first. */
  lemma MoveHandsOver(d: Db, d1: Db, obj: Id)
    requires Inv(d1) && d1.obligations == d.obligations && OpenUnder(d1, obj) == OpenUnder(d, obj)
    ensures |Subtree(d1, obj)| == |OpenUnder(d, obj)|
    ensures HandsOver(d, MoveSubtree(d1, obj), OpenUnder(d, obj))
    ensures OpenUnder(MoveSubtree(d1, obj), obj) == {}
  {
    hide Inv, Subtree;
    ScanIsExact(d1, obj);
    var d' := MoveSubtree(d1, obj);
    forall o | o in d1.obligations ensures o !in OpenUnder(d', obj) {
      assert o !in OpenUnder(d1, obj) ==> d'.obligations[o] == d1.obligations[o];
    }
  }

  /** Goals and tasks below which nothing else changed own the same open obligations. */
  lemma SameUnder(d: Db, d1: Db, obj: Id)
    requires d1.obligations == d.obligations && TasksEvolve(d.tasks, d1.tasks) && d1.tasks.Keys == d.tasks.Keys
    ensures OpenUnder(d1, obj) == OpenUnder(d, obj)
  {
    forall o | o in d.obligations
      ensures OwnerUnderGoal(d1, d.obligations[o].owner, obj) == OwnerUnderGoal(d, d.obligations[o].owner, obj)
    {
    }
  }

  /** A goal or task row written, then the hand-over, in one commit. */
  lemma GoalCommitHandsOver(d: Db, id: Id, g: Goal)
    requires Inv(d) && id in d.goals && GoalStep(d.goals[id], g)
    ensures var d1 := d.(goals := d.goals[id := g]);
            && |Subtree(d1, id)| == |OpenUnder(d, id)|
            && HandsOver(d, MoveSubtree(d1, id), OpenUnder(d, id))
            && OpenUnder(MoveSubtree(d1, id), id) == {}
  {
    hide Inv, Evolves, Subtree, MoveSubtree, HandsOver;
    GoalReplaced(d, id, g);
    EvolvesReflexive(d);
    TablesOf(d, d);
    SameUnder(d, d.(goals := d.goals[id := g]), id);
    MoveHandsOver(d, d.(goals := d.goals[id := g]), id);
  }

  lemma TaskCommitHandsOver(d: Db, id: Id, t: Task)
    requires Inv(d) && id in d.tasks && TaskStep(d.tasks[id], t)
    requires t.activePlan.Some? && t.activePlan != d.tasks[id].activePlan ==>
               t.activePlan.value in d.plans && d.plans[t.activePlan.value].taskId == id
    ensures var d1 := d.(tasks := d.tasks[id := t]);
            && |Subtree(d1, id)| == |OpenUnder(d, id)|
            && HandsOver(d, MoveSubtree(d1, id), OpenUnder(d, id))
            && OpenUnder(MoveSubtree(d1, id), id) == {}
  {
    hide Inv, Evolves, Subtree, MoveSubtree, HandsOver;
    TaskReplaced(d, id, t);
    var d1 := d.(tasks := d.tasks[id := t]);
    TablesOf(d, d1);
    SameUnder(d, d1, id);
    MoveHandsOver(d, d1, id);
  }

  /** The goal or task a call ends. */
  function Ended(c: WorkCall): Option<Id> {
    match c
    case Complete(o, _, _) => Some(o)
    case CancelTask(t, _) => Some(t)
    case CancelGoal(g, _) => Some(g)
    case Archive(o, _) => Some(o)
    case _ => None
  }

  /** complete_object, cancel_task, cancel_goal and archive_object move every OPEN obligation below the object to the
      registry in their own commit, keep it OPEN, touch no other one and answer the exact count. */
  lemma EndingHandsOver(d: Db, c: WorkCall, obj: Id)
    requires Inv(d) && Work.Apply(d, c).res.Ok? && Ended(c) == Some(obj)
    ensures HandsAllOver(d, Work.Apply(d, c), obj)
  {
    hide Inv, HandsAllOver, CompleteTx, TerminateTx;
    match c
    case Complete(_, e, k) =>
      EndingCompletes(d, obj, e, k);
      if obj in d.goals { EndedGoal(d, obj, GCompleted); } else { EndedTask(d, obj, TCompleted); }
    case CancelTask(_, e) => EndingTerminates(d, obj, OfTask(TCancelled), e); EndedTask(d, obj, TCancelled);
    case CancelGoal(_, e) => EndingTerminates(d, obj, OfGoal(GCancelled), e); EndedGoal(d, obj, GCancelled);
    case Archive(_, e) =>
      if obj in d.goals {
        EndingTerminates(d, obj, OfGoal(GArchived), e);
        EndedGoal(d, obj, GArchived);
      } else {
        EndingTerminates(d, obj, OfTask(TArchived), e);
        EndedTask(d, obj, TArchived);
      }
  }

  /** The store a goal's end writes before the hand-over, and a task's. */
  function GoalEnded(d: Db, obj: Id, s: GoalStatus): Db
    requires obj in d.goals
  {
    d.(goals := d.goals[obj := d.goals[obj].(status := s, revision := d.goals[obj].revision + 1)])
  }

  function TaskEnded(d: Db, obj: Id, s: TaskStatus): Db
    requires obj in d.tasks
  {
    d.(tasks := d.tasks[obj := d.tasks[obj].(status := s, activePlan := None, revision := d.tasks[obj].revision + 1)])
  }

  lemma EndingCompletes(d: Db, obj: Id, expected: nat, criterion: bool)
    requires CompleteTx(d, obj, expected, criterion).res.Ok?
    ensures obj in d.goals || obj in d.tasks
    ensures CompleteTx(d, obj, expected, criterion)
         == TerminalCommit(if obj in d.goals then GoalEnded(d, obj, GCompleted) else TaskEnded(d, obj, TCompleted), obj)
  {
    hide TerminalCommit, EvaluateCompletion, AllRequiredPass, TaskChildren, GoalChildren, StepsDone, TasksDone;
  }

  lemma EndingTerminates(d: Db, obj: Id, s: WorkStatus, expected: nat)
    requires TerminateTx(d, obj, s, expected).res.Ok?
    ensures s.OfGoal? ==> obj in d.goals && TerminateTx(d, obj, s, expected) == TerminalCommit(GoalEnded(d, obj, s.goal), obj)
    ensures s.OfTask? ==> obj in d.tasks && TerminateTx(d, obj, s, expected) == TerminalCommit(TaskEnded(d, obj, s.task), obj)
    ensures s.OfGoal? || s.OfTask?
  {
    hide TerminalCommit, GoalNext, TaskNext;
  }

  lemma EndedGoal(d: Db, obj: Id, s: GoalStatus)
    requires Inv(d) && obj in d.goals
    ensures HandsAllOver(d, TerminalCommit(GoalEnded(d, obj, s), obj), obj)
  {
    hide Inv, Subtree, MoveSubtree, HandsOver;
    GoalCommitHandsOver(d, obj, d.goals[obj].(status := s, revision := d.goals[obj].revision + 1));
  }

  lemma EndedTask(d: Db, obj: Id, s: TaskStatus)
    requires Inv(d) && obj in d.tasks
    ensures HandsAllOver(d, TerminalCommit(TaskEnded(d, obj, s), obj), obj)
  {
    hide Inv, Subtree, MoveSubtree, HandsOver;
    TaskCommitHandsOver(d, obj, d.tasks[obj].(status := s, activePlan := None, revision := d.tasks[obj].revision + 1));
  }

  /** The commit hands over exactly what is OPEN below obj, leaves nothing of it there and counts it. */
  predicate HandsAllOver(d: Db, r: Tx, obj: Id) {
    && r.res == Ok(None, |OpenUnder(d, obj)|)
    && HandsOver(d, r.db, OpenUnder(d, obj))
    && OpenUnder(r.db, obj) == {}
  }

  predicate RowTerminal(d: Db, obj: Id) {
    match Load(d, obj)
    case AGoal(g) => GoalTerminal(g.status)
    case ATask(t) => TaskTerminal(t.status)
    case _ => false
  }

  /** So does a repair that leaves a goal or task terminal. */
  lemma TerminalRepairHandsOver(d: Db, obj: Id, expected: nat, t: Target, justified: bool)
    requires Inv(d) && RepairTx(d, obj, expected, t, justified).res.Ok?
    requires RowTerminal(RepairTx(d, obj, expected, t, justified).db, obj) && (obj in d.goals || obj in d.tasks)
    ensures var r := RepairTx(d, obj, expected, t, justified);
            HandsAllOver(d, r, obj)
  {
    hide Inv, Subtree, MoveSubtree, HandsOver;
    if obj in d.goals {
      GoalCommitHandsOver(d, obj, FixGoal(d.goals[obj], t));
    } else {
      TaskCommitHandsOver(d, obj, FixTask(d.tasks[obj], t));
    }
  }

  /** And so does giving up on an unrepairable goal or task. */
  lemma AbandoningHandsOver(d: Db, obj: Id, expected: nat)
    requires Inv(d) && AbandonUnrepairableTx(d, obj, expected).res.Ok? && (obj in d.goals || obj in d.tasks)
    ensures var r := AbandonUnrepairableTx(d, obj, expected);
            HandsAllOver(d, r, obj)
  {
    hide Inv, Subtree, MoveSubtree, HandsOver;
    if obj in d.goals {
      var g := d.goals[obj];
      GoalCommitHandsOver(d, obj, g.(integrity := AbandonedUnrepairable, revision := g.revision + 1));
    } else {
      var t := d.tasks[obj];
      TaskCommitHandsOver(d, obj, t.(integrity := AbandonedUnrepairable, revision := t.revision + 1));
    }
  }

  predicate TerminalTarget(s: WorkStatus) {
    match s
    case OfGoal(g) => GoalTerminal(g)
    case OfTask(t) => TaskTerminal(t)
    case _ => false
  }

  lemma TransitionLeavesTerminal(d: Db, obj: Id, target: WorkStatus, expected: nat)
    requires TransitionTx(d, obj, target, expected).res.Ok? && TerminalTarget(target)
    ensures RowTerminal(TransitionTx(d, obj, target, expected).db, obj)
  {
    hide GoalNext, TaskNext, PlanNext, StepNext;
  }

  /** The law is one of these operations, not of the status: transition_object takes a goal or task to a terminal status
      too, and then it still has every OPEN obligation it had. */
  lemma TransitionHandsOverNothing(d: Db, obj: Id, target: WorkStatus, expected: nat)
    requires Inv(d) && TransitionTx(d, obj, target, expected).res.Ok? && TerminalTarget(target)
    ensures var d' := TransitionTx(d, obj, target, expected).db;
            && RowTerminal(d', obj) && OpenUnder(d', obj) == OpenUnder(d, obj)
            && forall o :: o in OpenUnder(d, obj) ==> d'.obligations[o] == d.obligations[o]
  {
    hide Inv, Evolves, TransitionTx, OpenUnder, RowTerminal;
    var d' := TransitionTx(d, obj, target, expected).db;
    TransitionLeavesTerminal(d, obj, target, expected);
    TransitionKeeps(d, obj, target, expected);
    TablesOf(d, d');
    TransitionKeys(d, obj, target, expected);
    SameUnder(d, d', obj);
  }

  lemma TransitionKeys(d: Db, obj: Id, target: WorkStatus, expected: nat)
    ensures TransitionTx(d, obj, target, expected).db.tasks.Keys == d.tasks.Keys
  {
    hide GoalNext, TaskNext, PlanNext, StepNext;
  }

  /** A task of which this is true: ACTIVE with an OPEN obligation, cancelled by transition_object, it ends CANCELLED and
      still owns it. */
  lemma CancelledTaskKeepsObligation(d: Db, task: Id, o: Id)
    requires Inv(d) && task in d.tasks && d.tasks[task].status == TActive && d.tasks[task].integrity == Sound
    requires o in d.obligations && d.obligations[o].disposition == Open && d.obligations[o].owner == Owned(task)
    ensures var r := TransitionTx(d, task, OfTask(TCancelled), d.tasks[task].revision);
            && r.res.Ok? && task in r.db.tasks && r.db.tasks[task].status == TCancelled
            && o in OpenUnder(r.db, task) && r.db.obligations[o].owner == Owned(task)
  {
    hide Inv, TransitionTx, OpenUnder;
    ActiveTaskCancels(d, task);
    TransitionHandsOverNothing(d, task, OfTask(TCancelled), d.tasks[task].revision);
    assert o in OpenUnder(d, task) by { OwnedIsUnder(d, task, o); }
  }

  lemma OwnedIsUnder(d: Db, task: Id, o: Id)
    requires o in d.obligations && d.obligations[o].disposition == Open && d.obligations[o].owner == Owned(task)
    ensures o in OpenUnder(d, task)
  {
  }

  lemma ActiveTaskCancels(d: Db, task: Id)
    requires Inv(d) && task in d.tasks && d.tasks[task].status == TActive && d.tasks[task].integrity == Sound
    ensures var r := TransitionTx(d, task, OfTask(TCancelled), d.tasks[task].revision);
            r.res.Ok? && task in r.db.tasks && r.db.tasks[task].status == TCancelled
  {
    hide Inv;
    MintedKeys(d);
  }
}
