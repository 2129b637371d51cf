/** How often a capability is called for one action: at most once, and never while the action is PENDING, unless a
    human repair sets that very action back to PENDING. */
module Reopening {
  import opened Types
  import opened Safety
  import opened Execution
  import opened EvidencePipeline
  import opened Repair
  import opened Invariants
  import opened RowWrites
  import opened Frames
  import opened Kernel
  import opened RunProofs
  import opened RunTheorems

  /** A repair of action a to PENDING. */
  predicate ReopensBy(c: Call, a: Id) {
    c.OfRepair? && c.repair.RepairObject? && c.repair.obj == a
    && c.repair.target.ActionFix? && c.repair.target.aStatus == Some(APending)
  }

  predicate Reopens(l: Label, a: Id) { l.Do? && ReopensBy(l.call, a) }

  predicate NeverReopens(labels: seq<Label>, a: Id) { forall i :: 0 <= i < |labels| ==> !Reopens(labels[i], a) }

  predicate Left(actions: map<Id, Action>, a: Id) { a in actions && actions[a].status != APending }

  // ------------------------------------------------- only such a repair returns to PENDING

  lemma NewActionLeaves(d: Db, a: Id, row: Action)
    requires Inv(d) && Left(d.actions, a)
    ensures Left(d.actions[Id(ActionK, d.next) := row], a)
  {
    hide Inv;
    MintedKeys(d);
  }

  lemma ActionCallLeaves(d: Db, c: ActionCall, a: Id)
    requires Inv(d) && Left(d.actions, a)
    ensures Left(Execution.Apply(d, c).db.actions, a)
  {
    hide Inv, PlanMismatchReason, GateOpens, OwningTask, CreateActionTx, RetryTx;
    match c
    case CreateAction(_, _, _, _, _, _, _) => CreateLeaves(d, c, a);
    case Retry(i, e) => RetryLeaves(d, i, e, a);
    case _ =>
  }

  lemma CreateLeaves(d: Db, c: ActionCall, a: Id)
    requires Inv(d) && Left(d.actions, a) && c.CreateAction?
    ensures Left(CreateActionTx(d, c).db.actions, a)
  {
    hide Inv;
    NewActionLeaves(d, a, Action(0, c.step, APending, c.capability, c.arguments, c.idempotency, c.confirmation, None, Sound));
  }

  lemma RetryLeaves(d: Db, id: Id, expected: nat, a: Id)
    requires Inv(d) && Left(d.actions, a)
    ensures Left(RetryTx(d, id, expected).db.actions, a)
  {
    hide Inv, OwningTask;
    if id in d.actions { NewActionLeaves(d, a, RetryOf(id, d.actions[id])); }
  }

  lemma ActionRepair(d: Db, id: Id, expected: nat, t: Target, justified: bool)
    requires Load(d, id).AnAction? && RepairTx(d, id, expected, t, justified).res.Ok?
    ensures t.ActionFix? && id in d.actions
    ensures RepairTx(d, id, expected, t, justified).db.actions == d.actions[id := FixAction(d.actions[id], t)]
  {
    hide Settle, Observed, FixAction;
  }

  lemma RefusedRepair(d: Db, id: Id, expected: nat, t: Target, justified: bool)
    requires Load(d, id).AnAction? && !RepairTx(d, id, expected, t, justified).res.Ok?
    ensures RepairTx(d, id, expected, t, justified).db.actions == d.actions
  {
    hide Settle, Observed, FixAction;
  }

  lemma FixLeaves(actions: map<Id, Action>, id: Id, t: Target, a: Id)
    requires Left(actions, a) && id in actions && t.ActionFix? && (id == a ==> t.aStatus != Some(APending))
    ensures Left(actions[id := FixAction(actions[id], t)], a)
  {
  }

  lemma AbandonLeaves(d: Db, id: Id, expected: nat, a: Id)
    requires Left(d.actions, a)
    ensures Left(AbandonUnrepairableTx(d, id, expected).db.actions, a)
  {
    hide Settle, Left;
    if AbandonUnrepairableTx(d, id, expected).res.Ok? && Load(d, id).AnAction? {
      RewriteLeaves(d.actions, id, d.actions[id].(integrity := AbandonedUnrepairable, revision := d.actions[id].revision + 1), a);
    }
  }

  lemma RewriteLeaves(actions: map<Id, Action>, id: Id, row: Action, a: Id)
    requires Left(actions, a) && id in actions && row.status == actions[id].status
    ensures Left(actions[id := row], a)
  {
  }

  lemma RepairCallLeaves(d: Db, c: RepairCall, a: Id)
    requires Left(d.actions, a) && !ReopensBy(OfRepair(c), a)
    ensures Left(Repair.Apply(d, c).db.actions, a)
  {
    hide RepairTx, AbandonUnrepairableTx, Left, FixAction;
    match c
    case RepairObject(id, e, t, j) =>
      if !Load(d, id).AnAction? {
        assert RepairTx(d, id, e, t, j).db.actions == d.actions;
      } else if RepairTx(d, id, e, t, j).res.Ok? {
        ActionRepair(d, id, e, t, j);
        FixLeaves(d.actions, id, t, a);
      } else {
        RefusedRepair(d, id, e, t, j);
      }
    case AbandonUnrepairable(id, e) => AbandonLeaves(d, id, e, a);
  }

  lemma CallLeaves(d: Db, c: Call, a: Id)
    requires Inv(d) && Left(d.actions, a) && !ReopensBy(c, a)
    ensures Left(Perform(d, c).db.actions, a)
  {
    hide Inv, Work.Apply, Execution.Apply, EvidencePipeline.Apply, Obligations.Apply, Safety.Apply, Repair.Apply;
    match c
    case OfWork(x) => WorkFrame(d, x);
    case OfAction(x) => ActionCallLeaves(d, x, a);
    case OfEvidence(x) => EvidenceFrame(d, x);
    case OfRepair(x) => RepairCallLeaves(d, x, a);
    case _ =>
  }

  lemma StepLeaves(w: World, l: Label, a: Id)
    requires Inv(w.db) && Left(w.db.actions, a) && !Reopens(l, a)
    ensures Left(Next(w, l).db.actions, a)
  {
    hide Inv, Next, Perform, Committed, GateFault, ClaimExists, StartVerificationTx, FinishVerificationTx;
    StepCommits(w, l);
    match l
    case Do(c) => CallLeaves(w.db, c, a);
    case VerifyStart(_, _, _) =>
    case VerifyEnd(_, _) =>
    case _ => InnerLeaves(w.db, Inner(w, l), a);
  }

  lemma InnerLeaves(d: Db, c: Option<ActionCall>, a: Id)
    requires Inv(d) && Left(d.actions, a)
    ensures Left(Committed(d, c).actions, a)
  {
    hide Inv, Left, Execution.Apply;
    if c.Some? { ActionCallLeaves(d, c.value, a); }
  }

  // ------------------------------------------------------------------- one start, one call

  /** Action a has at most one committed start, and having one it is no longer PENDING. */
  predicate StartedOnceFor(starts: seq<Start>, actions: map<Id, Action>, a: Id) {
    && (forall i :: 0 <= i < |starts| && starts[i].action == a ==> Left(actions, a))
    && (forall i, j :: 0 <= i < j < |starts| && starts[i].action == a ==> starts[j].action != a)
  }

  lemma StartsOnceMore(starts: seq<Start>, s: Start, before: map<Id, Action>, after: map<Id, Action>, a: Id)
    requires StartedOnceFor(starts, before, a) && (Left(before, a) ==> Left(after, a))
    requires s.action == a ==> !Left(before, a) && Left(after, a)
    ensures StartedOnceFor(starts + [s], after, a)
  {
  }

  lemma StartsOnceKept(starts: seq<Start>, before: map<Id, Action>, after: map<Id, Action>, a: Id)
    requires StartedOnceFor(starts, before, a) && (Left(before, a) ==> Left(after, a))
    ensures StartedOnceFor(starts, after, a)
  {
  }

  lemma LoggedStart(w: World, l: Label)
    requires Logged(w, l) != []
    ensures var s := Logged(w, l)[0];
            && Logged(w, l) == [s] && s.action in w.db.actions && w.db.actions[s.action].status == APending
            && Left(Next(w, l).db.actions, s.action)
  {
    hide Next, PlanMismatchReason, GateOpens;
    StepCommits(w, l);
    BeginBacked(w.db, if l.Do? then l.call.action else Begin(l.action, l.expected, l.plan, l.gate));
  }

  lemma StepStartsOnceFor(w: World, l: Label, a: Id)
    requires WorldOk(w) && StartedOnceFor(w.starts, w.db.actions, a) && !Reopens(l, a)
    ensures StartedOnceFor(Next(w, l).starts, Next(w, l).db.actions, a)
  {
    hide Inv, StartsOk, EffectsOk, WorkersOk, Next, Logged, StartedOnceFor, Left;
    StepStarts(w, l);
    if Left(w.db.actions, a) { StepLeaves(w, l, a); }
    if Logged(w, l) == [] {
      assert w.starts + [] == w.starts;
      StartsOnceKept(w.starts, w.db.actions, Next(w, l).db.actions, a);
    } else {
      LoggedStart(w, l);
      PendingIsNotLeft(w.db.actions, Logged(w, l)[0].action);
      StartsOnceMore(w.starts, Logged(w, l)[0], w.db.actions, Next(w, l).db.actions, a);
    }
  }

  lemma PendingIsNotLeft(actions: map<Id, Action>, a: Id)
    requires a in actions && actions[a].status == APending
    ensures !Left(actions, a)
  {
  }

  lemma {:induction false} RunStartsOnceFor(w: World, labels: seq<Label>, a: Id)
    requires WorldOk(w) && StartedOnceFor(w.starts, w.db.actions, a) && NeverReopens(labels, a)
    ensures WorldOk(Run(w, labels)) && StartedOnceFor(Run(w, labels).starts, Run(w, labels).db.actions, a)
    decreases |labels|
  {
    hide WorldOk, Next, StartedOnceFor;
    if labels != [] {
      RunStartsOnceFor(w, labels[..|labels| - 1], a);
      StepStartsOnceFor(Run(w, labels[..|labels| - 1]), labels[|labels| - 1], a);
      StepKeepsWorld(Run(w, labels[..|labels| - 1]), labels[|labels| - 1]);
    }
  }

  /** The capability of a has been called at this point of the run. */
  predicate Called(effects: seq<Invocation>, a: Id) { exists i :: 0 <= i < |effects| && effects[i].action == a }

  predicate CalledOnce(effects: seq<Invocation>, a: Id) {
    forall i, j :: 0 <= i < j < |effects| && effects[i].action == a ==> effects[j].action != a
  }

  lemma OnlyStart(starts: seq<Start>, actions: map<Id, Action>, a: Id, r: nat, s: nat)
    requires StartedOnceFor(starts, actions, a) && HasStart(starts, a, r) && HasStart(starts, a, s)
    ensures r == s
  {
    var i :| 0 <= i < |starts| && starts[i].action == a && starts[i].revision == r;
    var j :| 0 <= j < |starts| && starts[j].action == a && starts[j].revision == s;
  }

  lemma OneStartOneCall(w: World, a: Id)
    requires EffectsOk(w.starts, w.effects) && StartedOnceFor(w.starts, w.db.actions, a)
    ensures CalledOnce(w.effects, a) && (Called(w.effects, a) ==> Left(w.db.actions, a))
  {
    forall i | 0 <= i < |w.effects| && w.effects[i].action == a
      ensures HasStart(w.starts, a, w.effects[i].start) && Left(w.db.actions, a)
    {
      assert w.effects[i] in w.effects;
    }
    forall i, j | 0 <= i < |w.effects| && 0 <= j < |w.effects| && w.effects[i].action == a && w.effects[j].action == a
      ensures w.effects[i] == w.effects[j]
    {
      OnlyStart(w.starts, w.db.actions, a, w.effects[i].start, w.effects[j].start);
    }
  }

  /** In any run, with any repairs but one of this action to PENDING, the capability is called at most once for the
      action, and only after it left PENDING for good. */
  lemma {:induction false} CalledAtMostOnce(labels: seq<Label>, a: Id)
    requires NeverReopens(labels, a)
    ensures CalledOnce(Run(BOOT, labels).effects, a)
    ensures Called(Run(BOOT, labels).effects, a) ==> Left(Run(BOOT, labels).db.actions, a)
  {
    hide Inv, StartsOk, EffectsOk, WorkersOk, Run, StartedOnceFor, Left;
    BootOk();
    NothingStarted(a);
    RunStartsOnceFor(BOOT, labels, a);
    WorldSound(Run(BOOT, labels));
    OneStartOneCall(Run(BOOT, labels), a);
  }

  lemma NothingStarted(a: Id)
    ensures StartedOnceFor(BOOT.starts, BOOT.db.actions, a)
  {
  }

  lemma Concatenated(before: seq<Label>, labels: seq<Label>, a: Id)
    requires NeverReopens(before, a) && NeverReopens(labels, a)
    ensures NeverReopens(before + labels, a)
  {
  }

  // ---------------------------------------------------------------------- the converse

  lemma RepairedToPending(d: Db, a: Id)
    requires Inv(d) && a in d.actions
    ensures var r := RepairTx(d, a, d.actions[a].revision, ActionFix(Some(APending), Some(Sound), None), true);
            && r.res.Ok? && a in r.db.actions
            && r.db.actions[a] == d.actions[a].(status := APending, integrity := Sound, revision := d.actions[a].revision + 1)
  {
    hide Inv, RepairActionTx;
    assert Load(d, a).AnAction? by { MintedKeys(d); }
    PendingRepair(d, a);
  }

  lemma PendingRepair(d: Db, a: Id)
    requires a in d.actions
    ensures var r := RepairActionTx(d, a, d.actions[a].revision, ActionFix(Some(APending), Some(Sound), None));
            && r.res.Ok? && a in r.db.actions
            && r.db.actions[a] == d.actions[a].(status := APending, integrity := Sound, revision := d.actions[a].revision + 1)
  {
    hide Observed, Settle;
  }

  /** Such a repair is always open to a human, whatever the action's status, and then the capability is called again. */
  lemma {:induction false} RepairReopens(w: World, a: Id, p: nat, reply: Reply)
    requires Reachable(w) && a in w.db.actions && p !in w.workers
    ensures var r := w.db.actions[a].revision;
            Run(w, [Do(OfRepair(RepairObject(a, r, ActionFix(Some(APending), Some(Sound), None), true))),
                    ExecuteBegin(p, a, r + 1, None, NoGate), ExecuteEffect(p, reply)]).effects
            == w.effects + [Invocation(a, r + 1)]
  {
    hide Inv, StartsOk, EffectsOk, WorkersOk, Reachable, Run, RepairTx;
    ReachableOk(w);
    RepairedToPending(w.db, a);
    var r := w.db.actions[a].revision;
    RunThree(w, Do(OfRepair(RepairObject(a, r, ActionFix(Some(APending), Some(Sound), None), true))),
             ExecuteBegin(p, a, r + 1, None, NoGate), ExecuteEffect(p, reply));
  }

  /** The exact condition: once the capability of a has been called, a second call can come if and only if a repair of
      this very action to PENDING may. */
  lemma {:induction false} SecondCallNeedsReopening(before: seq<Label>, a: Id, p: nat, reply: Reply, mayReopen: bool)
    requires NeverReopens(before, a) && Called(Run(BOOT, before).effects, a) && p !in Run(BOOT, before).workers
    ensures (exists labels :: (mayReopen || NeverReopens(labels, a)) && !CalledOnce(Run(Run(BOOT, before), labels).effects, a))
       <==> mayReopen
  {
    hide Run, Next, Left, ReopensBy, NeverReopens, CalledOnce;
    var w := Run(BOOT, before);
    forall labels | NeverReopens(labels, a) ensures CalledOnce(Run(w, labels).effects, a) {
      RunOn(BOOT, before, labels);
      Concatenated(before, labels, a);
      CalledAtMostOnce(before + labels, a);
    }
    CalledAtMostOnce(before, a);
    assert a in w.db.actions by { LeftIsKnown(w.db.actions, a); }
    assert Reachable(w);
    RepairReopens(w, a, p, reply);
    var r := w.db.actions[a].revision;
    var again := [Do(OfRepair(RepairObject(a, r, ActionFix(Some(APending), Some(Sound), None), true))),
                  ExecuteBegin(p, a, r + 1, None, NoGate), ExecuteEffect(p, reply)];
    CalledTwice(w.effects, a, r + 1);
    assert !CalledOnce(Run(w, again).effects, a);
  }

  lemma LeftIsKnown(actions: map<Id, Action>, a: Id)
    requires Left(actions, a)
    ensures a in actions
  {
  }

  lemma CalledTwice(effects: seq<Invocation>, a: Id, start: nat)
    requires Called(effects, a)
    ensures !CalledOnce(effects + [Invocation(a, start)], a)
  {
    var i :| 0 <= i < |effects| && effects[i].action == a;
    var all := effects + [Invocation(a, start)];
    assert all[i].action == a && all[|effects|].action == a;
  }

  /** In particular, without any repair: at most one effect per action, and none while it is PENDING. */
  lemma EffectAtMostOnce(w: World)
    requires CleanlyReachable(w)
    ensures forall i :: 0 <= i < |w.effects| ==>
              w.effects[i].action in w.db.actions && w.db.actions[w.effects[i].action].status != APending
    ensures forall i, j :: 0 <= i < j < |w.effects| ==> w.effects[i].action != w.effects[j].action
  {
    hide Run;
    var labels :| RepairFree(labels) && w == Run(BOOT, labels);
    forall i | 0 <= i < |w.effects|
      ensures Left(w.db.actions, w.effects[i].action) && CalledOnce(w.effects, w.effects[i].action)
    {
      var a := w.effects[i].action;
      assert NeverReopens(labels, a);
      CalledAtMostOnce(labels, a);
      assert Called(w.effects, a);
    }
  }
}
