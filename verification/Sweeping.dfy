/** recover among everybody else (v5/recovery.py:33-65): its loop with any transactions of other callers and workers between
    the reads and commits of its iterations. */
module Sweeping {
  import opened Types
  import opened Execution
  import opened EvidencePipeline
  import opened Invariants
  import opened RowWrites
  import opened ExecutionProofs
  import opened Atomicity
  import opened Frames
  import opened Kernel
  import opened RunProofs
  import opened RunTheorems

  /** Nothing is left for recovery to do about a: its outcome is decided, or it is frozen for a human. */
  predicate Settled(actions: map<Id, Action>, a: Id) {
    a in actions && (actions[a].status !in {APending, AExecuting} || actions[a].integrity == Frozen)
  }

  predicate Recovers(w: Worker) { w.Sweeping? || w.Loading? || w.Marking? || w.Freezing? }

  /** What a recovering worker still has to handle. */
  function Outstanding(w: Worker): set<Id>
    requires Recovers(w)
  {
    if w.Sweeping? then w.todo else w.todo + {w.stuck}
  }

  // --------------------------------------------------- what a step does to a stuck action

  predicate KeptOrSettled(before: map<Id, Action>, after: map<Id, Action>, a: Id)
    requires a in before
  {
    a in after && (after[a] == before[a] || Settled(after, a))
  }

  lemma FreshKeeps(d: Db, a: Id, row: Action)
    requires Inv(d) && a in d.actions
    ensures KeptOrSettled(d.actions, d.actions[Id(ActionK, d.next) := row], a)
  {
    hide Inv;
    MintedKeys(d);
  }

  lemma CreateKeepsStuck(d: Db, c: ActionCall, a: Id)
    requires Inv(d) && a in d.actions && c.CreateAction?
    ensures KeptOrSettled(d.actions, CreateActionTx(d, c).db.actions, a)
  {
    hide Inv, KeptOrSettled;
    NothingWritten(d.actions, a);
    FreshKeeps(d, a, Action(0, c.step, APending, c.capability, c.arguments, c.idempotency, c.confirmation, None, Sound));
  }

  lemma NothingWritten(actions: map<Id, Action>, a: Id)
    requires a in actions
    ensures KeptOrSettled(actions, actions, a)
  {
  }

  lemma RetryKeepsStuck(d: Db, i: Id, e: nat, a: Id)
    requires Inv(d) && a in d.actions
    ensures KeptOrSettled(d.actions, RetryTx(d, i, e).db.actions, a)
  {
    hide Inv, OwningTask, KeptOrSettled;
    NothingWritten(d.actions, a);
    if i in d.actions { FreshKeeps(d, a, RetryOf(i, d.actions[i])); }
  }

  lemma RowKeepsStuck(actions: map<Id, Action>, i: Id, row: Action, a: Id)
    requires a in actions && (i == a ==> row.status !in {APending, AExecuting} || row.integrity == Frozen)
    ensures KeptOrSettled(actions, actions[i := row], a) && KeptOrSettled(actions, actions, a)
  {
  }

  /** The row an accepted call leaves its action with. */
  function RowAfter(c: ActionCall, x: Action): Action {
    match c
    case Begin(_, _, _, _) => Advanced(x, AExecuting)
    case MarkObserved(_, _, _, _) => Advanced(x, AObserved)
    case MarkUnknown(_, _) => Advanced(x, AUnknown)
    case MarkFailed(_, _, _) => Advanced(x, AFailed)
    case CancelAction(_, _) => Advanced(x, ACancelled)
    case _ => x.(integrity := Frozen, revision := x.revision + 1)
  }

  lemma EndingWrites(d: Db, c: ActionCall)
    requires c.Begin? || c.MarkObserved? || c.MarkUnknown? || c.MarkFailed? || c.CancelAction? || c.FreezeAction?
    requires Execution.Apply(d, c).res.Ok?
    ensures c.action in d.actions && (c.Begin? ==> d.actions[c.action].status == APending)
    ensures Execution.Apply(d, c).db.actions == d.actions[c.action := RowAfter(c, d.actions[c.action])]
  {
    hide PlanMismatchReason, OwningTask;
  }

  lemma EndingKeepsStuck(d: Db, c: ActionCall, a: Id)
    requires a in d.actions && d.actions[a].status == AExecuting
    requires c.Begin? || c.MarkObserved? || c.MarkUnknown? || c.MarkFailed? || c.CancelAction? || c.FreezeAction?
    requires Execution.Apply(d, c).res.Ok?
    ensures KeptOrSettled(d.actions, Execution.Apply(d, c).db.actions, a)
  {
    hide KeptOrSettled, Execution.Apply;
    EndingWrites(d, c);
    RowKeepsStuck(d.actions, c.action, RowAfter(c, d.actions[c.action]), a);
  }

  lemma RefusedKeepsStuck(d: Db, c: ActionCall, a: Id)
    requires a in d.actions && !Execution.Apply(d, c).res.Ok?
    ensures KeptOrSettled(d.actions, Execution.Apply(d, c).db.actions, a)
  {
    hide Execution.Apply;
    ActionRefusals(d, c);
  }

  lemma ActionCallSettles(d: Db, c: ActionCall, a: Id)
    requires Inv(d) && a in d.actions && d.actions[a].status == AExecuting
    ensures KeptOrSettled(d.actions, Execution.Apply(d, c).db.actions, a)
  {
    hide Inv, KeptOrSettled, CreateActionTx, RetryTx, BeginTx, MarkObservedTx, MarkUnknownTx, MarkFailedTx, CancelActionTx,
         FreezeActionTx;
    match c
    case CreateAction(_, _, _, _, _, _, _) => CreateKeepsStuck(d, c, a);
    case Retry(i, e) => RetryKeepsStuck(d, i, e, a);
    case _ => if Execution.Apply(d, c).res.Ok? { EndingKeepsStuck(d, c, a); } else { RefusedKeepsStuck(d, c, a); }
  }

  lemma CallSettles(d: Db, c: Call, a: Id)
    requires Inv(d) && a in d.actions && d.actions[a].status == AExecuting && !c.OfRepair?
    ensures KeptOrSettled(d.actions, Perform(d, c).db.actions, a)
  {
    hide Inv, Work.Apply, Execution.Apply, EvidencePipeline.Apply, Obligations.Apply, Safety.Apply;
    match c
    case OfWork(x) => WorkFrame(d, x);
    case OfAction(x) => ActionCallSettles(d, x, a);
    case OfEvidence(x) => EvidenceFrame(d, x);
    case _ =>
  }

  lemma InnerSettles(d: Db, c: Option<ActionCall>, a: Id)
    requires Inv(d) && a in d.actions && d.actions[a].status == AExecuting
    ensures KeptOrSettled(d.actions, Committed(d, c).actions, a)
  {
    hide Inv, Execution.Apply;
    if c.Some? { ActionCallSettles(d, c.value, a); }
  }

  lemma StepSettles(w: World, l: Label, a: Id)
    requires Inv(w.db) && !IsRepair(l) && a in w.db.actions && w.db.actions[a].status == AExecuting
    ensures KeptOrSettled(w.db.actions, Next(w, l).db.actions, a)
  {
    hide Inv, Next, Perform, Committed, GateFault, ClaimExists, StartVerificationTx, FinishVerificationTx;
    StepCommits(w, l);
    match l
    case Do(c) => CallSettles(w.db, c, a);
    case VerifyStart(_, _, _) =>
    case VerifyEnd(_, _) =>
    case _ => InnerSettles(w.db, Inner(w, l), a);
  }

  // ------------------------------------------------------------------- the sweep's invariant

  /** Every action of s, EXECUTING when the sweep began, is settled or still EXECUTING. */
  predicate Underway(actions: map<Id, Action>, s: set<Id>) {
    forall a :: a in s ==> a in actions && (Settled(actions, a) || actions[a].status == AExecuting)
  }

  /** While worker p recovers, the actions of s not settled are still on its list, and the one it is about to mark is as it
      was when its revision was read. */
  predicate Covers(w: World, p: nat, s: set<Id>) {
    p in w.workers && Recovers(w.workers[p]) ==>
      && (forall a :: a in s ==> Settled(w.db.actions, a) || a in Outstanding(w.workers[p]))
      && (w.workers[p].Marking? && w.workers[p].stuck in s ==>
            Settled(w.db.actions, w.workers[p].stuck)
            || (w.workers[p].stuck in w.db.actions && w.db.actions[w.workers[p].stuck].revision == w.workers[p].revision))
  }

  lemma SettledStays(a: map<Id, Action>, b: map<Id, Action>, x: Id)
    requires Settled(a, x) && ActionsEvolve(a, b) && ActionsForward(a, b)
    ensures Settled(b, x)
  {
    assert ActionForward(a[x], b[x]);
  }

  lemma UnderwayStays(w: World, l: Label, s: set<Id>)
    requires Inv(w.db) && !IsRepair(l) && Underway(w.db.actions, s)
    requires ActionsEvolve(w.db.actions, Next(w, l).db.actions) && ActionsForward(w.db.actions, Next(w, l).db.actions)
    ensures Underway(Next(w, l).db.actions, s)
  {
    hide Inv, Next, Settled;
    forall a | a in s
      ensures a in Next(w, l).db.actions
        && (Settled(Next(w, l).db.actions, a) || Next(w, l).db.actions[a].status == AExecuting)
    {
      if Settled(w.db.actions, a) {
        SettledStays(w.db.actions, Next(w, l).db.actions, a);
        SettledKnown(Next(w, l).db.actions, a);
      } else {
        StepSettles(w, l, a);
      }
    }
  }

  lemma SettledKnown(actions: map<Id, Action>, a: Id)
    requires Settled(actions, a)
    ensures a in actions
  {
  }

  /** Other workers' steps: the list is the same, and the row about to be marked changes only by being settled. */
  lemma OthersCover(w: World, l: Label, p: nat, s: set<Id>)
    requires Inv(w.db) && !IsRepair(l) && Underway(w.db.actions, s) && Covers(w, p, s)
    requires ActionsEvolve(w.db.actions, Next(w, l).db.actions) && ActionsForward(w.db.actions, Next(w, l).db.actions)
    requires p in w.workers && p in Next(w, l).workers && Next(w, l).workers[p] == w.workers[p]
    ensures Covers(Next(w, l), p, s)
  {
    hide Inv, Next, Settled;
    if Recovers(w.workers[p]) {
      forall a | a in s && Settled(w.db.actions, a) ensures Settled(Next(w, l).db.actions, a) {
        SettledStays(w.db.actions, Next(w, l).db.actions, a);
      }
      if w.workers[p].Marking? && w.workers[p].stuck in s && !Settled(w.db.actions, w.workers[p].stuck) {
        StepSettles(w, l, w.workers[p].stuck);
      }
    }
  }

  lemma FreezingSettles(d: Db, a: Id)
    requires a in d.actions
    ensures Settled(FreezeActionTx(d, a).db.actions, a)
  {
  }

  lemma MarkingSettles(d: Db, a: Id, r: nat)
    requires Inv(d) && a in d.actions && d.actions[a].status == AExecuting && d.actions[a].revision == r
    ensures Settled(MarkUnknownTx(d, a, r).db.actions, a)
  {
    hide Inv, OwningTask;
    InvHas(d, ActionsSound);
    OwnerKnown(d, d.actions[a]);
  }

  /** The worker's own steps: what leaves the list is settled. */
  lemma OwnReadCover(w: World, l: Label, p: nat, s: set<Id>)
    requires Covers(w, p, s) && p in w.workers && Recovers(w.workers[p]) && (l.RecoverClassify? || l.RecoverLoad?) && l.worker == p
    ensures Covers(Next(w, l), p, s)
  {
    hide Settled, Classify;
  }

  lemma CommitSettles(w: World, p: nat, a: Id)
    requires Inv(w.db) && p in w.workers && (w.workers[p].Freezing? || w.workers[p].Marking?) && w.workers[p].stuck == a
    requires a in w.db.actions && w.db.actions[a].status == AExecuting
    requires w.workers[p].Marking? ==> w.workers[p].revision == w.db.actions[a].revision
    ensures Settled(Next(w, RecoverCommit(p)).db.actions, a)
  {
    hide Inv, Settled, FreezeActionTx, MarkUnknownTx;
    FreezingSettles(w.db, a);
    if w.workers[p].Marking? { MarkingSettles(w.db, a, w.workers[p].revision); }
  }

  lemma OwnCommitCover(w: World, p: nat, s: set<Id>)
    requires Inv(w.db) && Underway(w.db.actions, s) && Covers(w, p, s) && p in w.workers && Recovers(w.workers[p])
    requires forall a :: a in s && Settled(w.db.actions, a) ==> Settled(Next(w, RecoverCommit(p)).db.actions, a)
    ensures Covers(Next(w, RecoverCommit(p)), p, s)
  {
    hide Inv, Settled, FreezeActionTx, MarkUnknownTx;
    if (w.workers[p].Freezing? || w.workers[p].Marking?) && w.workers[p].stuck in s
       && !Settled(w.db.actions, w.workers[p].stuck)
    {
      CommitSettles(w, p, w.workers[p].stuck);
    }
  }

  lemma OwnCover(w: World, l: Label, p: nat, s: set<Id>)
    requires Inv(w.db) && !IsRepair(l) && Underway(w.db.actions, s) && Covers(w, p, s)
    requires ActionsEvolve(w.db.actions, Next(w, l).db.actions) && ActionsForward(w.db.actions, Next(w, l).db.actions)
    requires p in w.workers && Recovers(w.workers[p])
    requires (l.RecoverClassify? || l.RecoverLoad? || l.RecoverCommit?) && l.worker == p
    ensures Covers(Next(w, l), p, s)
  {
    hide Inv, Settled, Next, Covers, Underway;
    if l.RecoverCommit? {
      forall a | a in s && Settled(w.db.actions, a) ensures Settled(Next(w, l).db.actions, a) {
        SettledStays(w.db.actions, Next(w, l).db.actions, a);
      }
      OwnCommitCover(w, p, s);
    } else {
      OwnReadCover(w, l, p, s);
    }
  }

  lemma ScanCovers(w: World, p: nat, s: set<Id>)
    requires p !in w.workers && Underway(w.db.actions, s)
    ensures Covers(Next(w, RecoverScan(p)), p, s)
  {
  }

  lemma NotRecovering(w: World, p: nat, s: set<Id>)
    requires p !in w.workers || !Recovers(w.workers[p])
    ensures Covers(w, p, s)
  {
  }

  /** How a step treats the worker p. */
  lemma WorkerCases(w: World, l: Label, p: nat)
    ensures p !in Next(w, l).workers || !Recovers(Next(w, l).workers[p])
         || (p !in w.workers && l == RecoverScan(p))
         || (p in w.workers && Next(w, l).workers[p] == w.workers[p])
         || (p in w.workers && Recovers(w.workers[p])
             && (l.RecoverClassify? || l.RecoverLoad? || l.RecoverCommit?) && l.worker == p)
  {
    hide Perform, BeginTx, EndTx, FreezeActionTx, MarkUnknownTx, StartVerificationTx, FinishVerificationTx, Classify;
  }

  lemma StepCovers(w: World, l: Label, p: nat, s: set<Id>)
    requires StrictWorld(w) && !IsRepair(l) && Underway(w.db.actions, s) && Covers(w, p, s)
    ensures Underway(Next(w, l).db.actions, s) && Covers(Next(w, l), p, s)
  {
    hide Inv, Strict, StartsOk, EffectsOk, WorkersOk, StartedOnce, Next, PointerForward, RetriesAccounted, Evolves,
         Underway, Covers;
    StepKeepsWorld(w, l);
    StepKeepsStrict(w, l);
    TablesOf(w.db, Next(w, l).db);
    UnderwayStays(w, l, s);
    WorkerCases(w, l, p);
    if p !in Next(w, l).workers || !Recovers(Next(w, l).workers[p]) {
      NotRecovering(Next(w, l), p, s);
    } else if p !in w.workers {
      ScanCovers(w, p, s);
    } else if Next(w, l).workers[p] == w.workers[p] {
      OthersCover(w, l, p, s);
    } else {
      OwnCover(w, l, p, s);
    }
  }

  lemma {:induction false} RunCovers(w: World, labels: seq<Label>, p: nat, s: set<Id>)
    requires StrictWorld(w) && RepairFree(labels) && Underway(w.db.actions, s) && Covers(w, p, s)
    ensures Underway(Run(w, labels).db.actions, s) && Covers(Run(w, labels), p, s) && StrictWorld(Run(w, labels))
    decreases |labels|
  {
    hide StrictWorld, Next, Underway, Covers;
    if labels != [] {
      var before := labels[..|labels| - 1];
      RunCovers(w, before, p, s);
      StepCovers(Run(w, before), labels[|labels| - 1], p, s);
      StepKeepsStrict(Run(w, before), labels[|labels| - 1]);
    }
  }

  lemma StuckUnderway(d: Db)
    ensures Underway(d.actions, Stuck(d))
  {
  }

  /** Recovery under interleaving: from the scan on, whatever other callers and workers do between the reads and commits of
      the loop, and even if the process dies and recovery starts again, every action found EXECUTING is settled or still on
      the list; when the loop is through, all of them are settled. */
  lemma {:induction false} SweepSettles(w: World, p: nat, labels: seq<Label>, a: Id)
    requires CleanlyReachable(w) && RepairFree(labels) && p !in w.workers
    requires a in w.db.actions && w.db.actions[a].status == AExecuting
    ensures var w' := Run(Next(w, RecoverScan(p)), labels);
            && a in w'.db.actions
            && (p in w'.workers && Recovers(w'.workers[p]) ==>
                  Settled(w'.db.actions, a) || a in Outstanding(w'.workers[p]))
            && (p in w'.workers && w'.workers[p] == Worker.Sweeping({}) ==> Settled(w'.db.actions, a))
  {
    hide Inv, Strict, StartsOk, EffectsOk, WorkersOk, StartedOnce, Run, CleanlyReachable, Reachable, Settled;
    CleanOk(w);
    StuckUnderway(w.db);
    ScanCovers(w, p, Stuck(w.db));
    StepKeepsStrict(w, RecoverScan(p));
    RunCovers(Next(w, RecoverScan(p)), labels, p, Stuck(w.db));
  }
}
