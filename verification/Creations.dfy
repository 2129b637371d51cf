/** What the small operations mean to a caller: when they commit, and what the rest of the kernel makes of the result. */
module Creations {
  import opened Types
  import opened Obligations
  import opened Execution
  import opened EvidencePipeline
  import opened Work
  import opened Invariants
  import opened RowWrites
  import opened ExecutionProofs
  import opened Transfers
  import opened Kernel
  import opened RunProofs
  import opened RunTheorems
  import opened Reopening

  /** No row of any table is known by this id. */
  predicate Unused(d: Db, id: Id) {
    && id !in d.goals && id !in d.tasks && id !in d.plans && id !in d.steps && id !in d.actions && id !in d.observations
    && id !in d.evidence && !ClaimExists(d, id) && id !in d.verifications && id !in d.obligations && id !in d.confirmations
  }

  lemma NextIsUnused(d: Db, k: Kind)
    requires Inv(d)
    ensures Unused(d, Id(k, d.next))
  {
    hide Inv;
    MintedKeys(d);
  }

  // -------------------------------------------------------------------- goals, tasks, plans

  /** A new goal is known by an unused id, has no task and no obligation below it, and under ALL_REQUIRED cannot be
      completed as it stands. */
  lemma NewGoalIsEmpty(d: Db, policy: Policy)
    requires Inv(d)
    ensures var r := CreateGoalTx(d, policy);
            && r.res.Ok? && r.res.made.Some? && Unused(d, r.res.made.value)
            && Load(r.db, r.res.made.value).AGoal?
            && GoalChildren(r.db, r.res.made.value) == {} && OpenUnder(r.db, r.res.made.value) == {}
    ensures var r := CreateGoalTx(d, policy);
            policy == AllRequired ==> forall e, k :: !CompleteTx(r.db, r.res.made.value, e, k).res.Ok?
  {
    hide Inv, Unused, CompleteTx;
    NextIsUnused(d, GoalK);
    var r := CreateGoalTx(d, policy);
    var id := r.res.made.value;
    NoTaskUnder(d, r.db, id);
    if policy == AllRequired {
      forall e, k ensures !CompleteTx(r.db, id, e, k).res.Ok? { ChildlessGoalStays(r.db, id, e, k); }
    }
  }

  lemma NoTaskUnder(d: Db, d': Db, goal: Id)
    requires Inv(d) && goal == Id(GoalK, d.next) && d' == d.(next := d'.next, goals := d'.goals)
    ensures GoalChildren(d', goal) == {} && OpenUnder(d', goal) == {}
  {
    hide Inv;
    MintedKeys(d);
    InvHas(d, TasksSound);
    InvHas(d, ObligationsSound);
  }

  lemma ChildlessGoalStays(d: Db, goal: Id, expected: nat, criterion: bool)
    requires goal in d.goals && d.goals[goal].policy == AllRequired && GoalChildren(d, goal) == {}
    ensures !CompleteTx(d, goal, expected, criterion).res.Ok?
  {
    hide GoalChildren, TerminalCommit;
  }

  /** A task is created exactly under a live goal at the expected revision; it is one more child of that goal alone, with
      no child and no obligation of its own. */
  lemma NewTaskIsAChild(d: Db, goal: Id, policy: Policy, maxAttempts: int, used: int, expected: Option<nat>)
    requires Inv(d)
    ensures var r := CreateTaskTx(d, goal, policy, maxAttempts, used, expected);
            r.res.Ok? <==> goal in d.goals && !GoalTerminal(d.goals[goal].status)
                           && (expected.Some? ==> d.goals[goal].revision == expected.value)
    ensures var r := CreateTaskTx(d, goal, policy, maxAttempts, used, expected);
            r.res.Ok? ==> r.res.made.Some? && IsNewTask(d, r.db, goal, r.res.made.value)
  {
    hide Inv, Unused;
    NextIsUnused(d, TaskK);
    var r := CreateTaskTx(d, goal, policy, maxAttempts, used, expected);
    if r.res.Ok? { TaskAdded(d, r.db, goal, r.db.tasks[r.res.made.value]); }
  }

  ghost predicate IsNewTask(d: Db, d': Db, goal: Id, id: Id) {
    && Unused(d, id) && id in d'.tasks && TaskChildren(d', d'.tasks[id]) == {} && OpenUnder(d', id) == {}
    && (forall g :: GoalChildren(d', g) == GoalChildren(d, g) + (if g == goal then {id} else {}))
  }

  lemma ChildAdded(d: Db, d': Db, id: Id, t: Task)
    requires id !in d.tasks && t.status == TPending && d'.tasks == d.tasks[id := t]
    ensures forall g :: GoalChildren(d', g) == GoalChildren(d, g) + (if g == t.goalId then {id} else {})
  {
  }

  lemma OwnsNothing(d: Db, d': Db, id: Id, t: Task)
    requires Inv(d) && id == Id(TaskK, d.next) && t.goalId in d.goals
    requires d' == d.(next := d'.next, tasks := d.tasks[id := t])
    ensures OpenUnder(d', id) == {}
  {
    hide Inv;
    MintedKeys(d);
    InvHas(d, ObligationsSound);
    InvHas(d, TasksSound);
  }

  lemma TaskAdded(d: Db, d': Db, goal: Id, t: Task)
    requires Inv(d) && goal in d.goals && t.goalId == goal && t.status == TPending && t.activePlan.None?
    requires d' == d.(next := d'.next, tasks := d.tasks[Id(TaskK, d.next) := t])
    ensures IsNewTask(d, d', goal, Id(TaskK, d.next))
  {
    hide Inv, Unused, GoalChildren, OpenUnder;
    NextIsUnused(d, TaskK);
    assert Id(TaskK, d.next) !in d.tasks by { MintedKeys(d); }
    ChildAdded(d, d', Id(TaskK, d.next), t);
    OwnsNothing(d, d', Id(TaskK, d.next), t);
  }

  /** A plan is created exactly for a live task; it has no step, the task's pointer stays, and activating it next commits
      exactly when the task is ACTIVE or BLOCKED and points at no plan still in force. */
  lemma NewPlanActivates(d: Db, task: Id)
    requires Inv(d)
    ensures CreatePlanTx(d, task).res.Ok? <==> task in d.tasks && !TaskTerminal(d.tasks[task].status)
    ensures var r := CreatePlanTx(d, task);
            r.res.Ok? ==>
              && r.res.made.Some? && Unused(d, r.res.made.value)
              && PlanSteps(r.db, r.res.made.value) == {} && r.db.tasks == d.tasks
              && (ActivatePlanTx(r.db, task, r.res.made.value, d.tasks[task].revision).res.Ok? <==>
                    d.tasks[task].status in {TActive, TBlocked}
                    && (d.tasks[task].activePlan.Some? ==>
                          d.tasks[task].activePlan.value in d.plans
                          && Displaceable(d.plans[d.tasks[task].activePlan.value].status)))
  {
    hide Inv, Unused;
    NextIsUnused(d, PlanK);
    MintedKeys(d);
    InvHas(d, StepsSound);
    InvHas(d, TasksSound);
  }

  // -------------------------------------------------------------------------- obligations

  /** An obligation is created exactly for the registry or an existing task, and is then OPEN below exactly its owner
      and the owner's goal. */
  lemma NewObligationIsOpen(d: Db, origin: Id, owner: Owner)
    requires Inv(d)
    ensures Obligations.Apply(d, CreateObligation(origin, owner)).res.Ok? <==> ValidOwner(d, owner)
    ensures var r := Obligations.Apply(d, CreateObligation(origin, owner));
            r.res.Ok? ==>
              && r.res.made.Some? && Unused(d, r.res.made.value)
              && forall obj :: OpenUnder(r.db, obj) == OpenUnder(d, obj)
                   + (if owner == Owned(obj) || OwnerUnderGoal(d, owner, obj) then {r.res.made.value} else {})
  {
    hide Inv, Unused, ValidOwner;
    NextIsUnused(d, ObligationK);
    if ValidOwner(d, owner) { ObligationAdded(d, Id(ObligationK, d.next), NewObligation(origin, owner)); }
  }

  lemma ObligationAdded(d: Db, id: Id, o: Obligation)
    requires Inv(d) && id == Id(ObligationK, d.next) && o.disposition == Open
    ensures var d' := d.(next := d.next + 1, obligations := d.obligations[id := o]);
            forall obj :: OpenUnder(d', obj) == OpenUnder(d, obj)
              + (if o.owner == Owned(obj) || OwnerUnderGoal(d, o.owner, obj) then {id} else {})
  {
    hide Inv;
    MintedKeys(d);
  }

  /** An obligation is abandoned exactly when OPEN, by a named human, at the expected revision; it then leaves every OPEN
      set it was in, keeps its owner and origin, and no operation on obligations accepts it again. */
  lemma AbandonedIsClosed(d: Db, id: Id, human: bool, expected: nat)
    ensures AbandonLocked(d, id, human, expected).res.Ok? <==>
              id in d.obligations && human && d.obligations[id].disposition == Open && d.obligations[id].revision == expected
    ensures AbandonLocked(d, id, human, expected).res.Ok? ==>
              IsAbandoned(d, AbandonLocked(d, id, human, expected).db, id)
  {
    hide IsAbandoned;
    if AbandonLocked(d, id, human, expected).res.Ok? {
      ClosedLeaves(d, AbandonLocked(d, id, human, expected).db, id);
      ClosedRefuses(AbandonLocked(d, id, human, expected).db, id);
      AbandonedFrom(d, AbandonLocked(d, id, human, expected).db, id);
    }
  }

  ghost predicate RefusesAll(d: Db, id: Id) {
    && (forall n, e :: !TransferLocked(d, id, n, e).res.Ok?)
    && (forall h, r :: !AbandonLocked(d, id, h, r).res.Ok?)
    && (forall v, r :: !ResolveObligation(d, id, v, r).res.Ok?)
  }

  ghost predicate IsAbandoned(d: Db, d': Db, id: Id) {
    && id in d.obligations && id in d'.obligations
    && d'.obligations[id].owner == d.obligations[id].owner && d'.obligations[id].origin == d.obligations[id].origin
    && (forall obj :: OpenUnder(d', obj) == OpenUnder(d, obj) - {id})
    && RefusesAll(d', id)
  }

  lemma AbandonedFrom(d: Db, d': Db, id: Id)
    requires id in d.obligations && id in d'.obligations
    requires d'.obligations[id].owner == d.obligations[id].owner && d'.obligations[id].origin == d.obligations[id].origin
    requires (forall obj :: OpenUnder(d', obj) == OpenUnder(d, obj) - {id}) && RefusesAll(d', id)
    ensures IsAbandoned(d, d', id)
  {
    hide OpenUnder, RefusesAll;
  }

  lemma ClosedLeaves(d: Db, d': Db, id: Id)
    requires id in d.obligations && id in d'.obligations && d'.obligations[id].disposition != Open
    requires d'.tasks == d.tasks && d'.obligations == d.obligations[id := d'.obligations[id]]
    ensures forall obj :: OpenUnder(d', obj) == OpenUnder(d, obj) - {id}
  {
  }

  lemma ClosedRefuses(d: Db, id: Id)
    requires id in d.obligations && d.obligations[id].disposition != Open
    ensures RefusesAll(d, id)
  {
    hide Concerns;
  }

  // ------------------------------------------------------------------------------ evidence

  /** What a user says justifies nothing: no list of citations gains confidence by it, a HIGH claim resting on it alone is
      refused, and no claim concerns an action it did not concern before. */
  lemma UserEvidenceJustifiesNothing(d: Db)
    requires Inv(d)
    ensures var r := EvidencePipeline.Apply(d, RecordUser);
            && r.res.Ok? && r.res.made.Some? && Unused(d, r.res.made.value) && Cited(r.db, [r.res.made.value])
            && (forall b, c :: Justified(r.db, b, c) <==> Justified(d, b, c))
            && CreateClaimTx(r.db, [r.res.made.value], High).res == Rejected(ConfidenceNotJustified)
            && (forall claim, a :: Concerns(r.db, claim, a) <==> Concerns(d, claim, a))
  {
    hide Inv, Unused, Concerns, Justified;
    NextIsUnused(d, EvidenceK);
    var id := Id(EvidenceK, d.next);
    assert id !in d.evidence by { MintedKeys(d); }
    UnprovenAddsNothing(d, id);
    assert ClaimsOk(d.claims, d.evidence) by { InvHas(d, ClaimsSound); }
    ConcernsUnmoved(d, id);
  }

  lemma ConcernsUnmoved(d: Db, id: Id)
    requires id !in d.evidence && ClaimsOk(d.claims, d.evidence)
    ensures var d' := d.(next := d.next + 1, evidence := d.evidence[id := Evidence(UnknownEvidence, None)]);
            forall claim, a :: Concerns(d', claim, a) <==> Concerns(d, claim, a)
  {
    hide ClaimsOk, Concerns;
    var d' := d.(next := d.next + 1, evidence := d.evidence[id := Evidence(UnknownEvidence, None)]);
    forall claim, a ensures Concerns(d', claim, a) <==> Concerns(d, claim, a) {
      SameConcern(d, id, claim, a);
    }
  }

  lemma UnprovenAddsNothing(d: Db, id: Id)
    requires id !in d.evidence
    ensures var d' := d.(next := d.next + 1, evidence := d.evidence[id := Evidence(UnknownEvidence, None)]);
            (forall b, c :: Justified(d', b, c) <==> Justified(d, b, c)) && !Justified(d', [id], High)
  {
  }

  lemma SameConcern(d: Db, id: Id, claim: Id, a: Id)
    requires id !in d.evidence && ClaimsOk(d.claims, d.evidence)
    ensures var d' := d.(next := d.next + 1, evidence := d.evidence[id := Evidence(UnknownEvidence, None)]);
            Concerns(d', claim, a) <==> Concerns(d, claim, a)
  {
    var d' := d.(next := d.next + 1, evidence := d.evidence[id := Evidence(UnknownEvidence, None)]);
    if Concerns(d, claim, a) {
      var v, e :| Newest(d.claims, claim, v) && e in d.claims[ClaimKey(claim, v)].basedOn
        && EvidenceOf(d.evidence, d.observations, e, a);
      assert EvidenceOf(d'.evidence, d'.observations, e, a);
    }
    if Concerns(d', claim, a) {
      var v, e :| Newest(d'.claims, claim, v) && e in d'.claims[ClaimKey(claim, v)].basedOn
        && EvidenceOf(d'.evidence, d'.observations, e, a);
      assert EvidenceOf(d.evidence, d.observations, e, a);
    }
  }

  // ------------------------------------------------------------------------------- actions

  /** When create_action accepts. */
  predicate Acceptable(d: Db, c: ActionCall)
    requires c.CreateAction?
  {
    && c.step in d.steps
    && d.steps[c.step].status !in {SCancelled, SSkipped, SCompleted}
    && (c.expectedStep.Some? ==> d.steps[c.step].revision == c.expectedStep.value)
    && (d.steps[c.step].capability != "" ==> c.capability == d.steps[c.step].capability)
    && c.argumentsOk
  }

  /** An action is created exactly for an unfinished step, the step's capability and accepted arguments; at every point of
      every run it is then new to the kernel: unused id, never started, never called. */
  lemma NewActionIsUnstarted(w: World, c: ActionCall)
    requires Reachable(w) && c.CreateAction?
    ensures CreateActionTx(w.db, c).res.Ok? <==> Acceptable(w.db, c)
    ensures var r := CreateActionTx(w.db, c);
            r.res.Ok? ==>
              && r.res.made.Some? && Unused(w.db, r.res.made.value) && r.res.made.value in r.db.actions
              && r.db.actions[r.res.made.value].status == APending
              && (forall i :: 0 <= i < |w.starts| ==> w.starts[i].action != r.res.made.value)
              && !Called(w.effects, r.res.made.value)
  {
    hide Inv, Unused, WorkersOk, Reachable, Backs;
    ReachableOk(w);
    NextIsUnused(w.db, ActionK);
    assert Id(ActionK, w.db.next) !in w.db.actions by { MintedKeys(w.db); }
    forall i | 0 <= i < |w.starts| ensures w.starts[i].action != Id(ActionK, w.db.next) {
      assert StartOk(w.starts[i], w.db);
    }
    forall i | 0 <= i < |w.effects| ensures w.effects[i].action != Id(ActionK, w.db.next) {
      assert w.effects[i] in w.effects;
    }
  }

  /** Capability correspondence at every point of every run, repairs and retries included: an action of a step that declares
      a capability has that capability. */
  lemma CapabilityCorrespondence(w: World, a: Id)
    requires Reachable(w) && a in w.db.actions
    ensures var x := w.db.actions[a];
            x.stepId in w.db.steps && (w.db.steps[x.stepId].capability != "" ==> x.capability == w.db.steps[x.stepId].capability)
  {
    hide Inv, StartsOk, EffectsOk, WorkersOk, Reachable;
    ReachableOk(w);
    InvHas(w.db, ActionsSound);
  }

  /** In a sound store a retry commits exactly for an UNKNOWN_OUTCOME or FAILED action whose task, at the expected revision,
      has attempts left: the owning task is always found. */
  lemma RetryCommitsIff(d: Db, a: Id, expectedTask: nat)
    requires Inv(d)
    ensures RetryTx(d, a, expectedTask).res.Ok? <==>
              && a in d.actions && d.actions[a].status in {AUnknown, AFailed}
              && OwningTask(d, d.actions[a]).Some?
              && var t := OwningTask(d, d.actions[a]).value;
                 t in d.tasks && d.tasks[t].revision == expectedTask && d.tasks[t].attemptsUsed < d.tasks[t].maxAttempts
    ensures a in d.actions ==> OwningTask(d, d.actions[a]).Some? && OwningTask(d, d.actions[a]).value in d.tasks
  {
    hide Inv, OwningTask;
    if a in d.actions {
      InvHas(d, ActionsSound);
      OwnerKnown(d, d.actions[a]);
    }
  }

  /** Left PENDING without ever being started. */
  predicate LeftUnstarted(w: World, a: Id) {
    Left(w.db.actions, a) && forall i :: 0 <= i < |w.starts| ==> w.starts[i].action != a
  }

  lemma StepLeavesUnstarted(w: World, l: Label, a: Id)
    requires WorldOk(w) && LeftUnstarted(w, a) && !Reopens(l, a)
    ensures LeftUnstarted(Next(w, l), a)
  {
    hide Inv, StartsOk, EffectsOk, WorkersOk, Next, Logged;
    StepStarts(w, l);
    StepLeaves(w, l, a);
    if Logged(w, l) != [] {
      LoggedStart(w, l);
    } else {
      assert w.starts + [] == w.starts;
    }
  }

  lemma {:induction false} RunLeavesUnstarted(w: World, labels: seq<Label>, a: Id)
    requires WorldOk(w) && LeftUnstarted(w, a) && NeverReopens(labels, a)
    ensures WorldOk(Run(w, labels)) && LeftUnstarted(Run(w, labels), a)
    decreases |labels|
  {
    hide WorldOk, Next, LeftUnstarted;
    if labels != [] {
      var before := labels[..|labels| - 1];
      RunLeavesUnstarted(w, before, a);
      StepLeavesUnstarted(Run(w, before), labels[|labels| - 1], a);
      StepKeepsWorld(Run(w, before), labels[|labels| - 1]);
    }
  }

  lemma UnstartedIsUncalled(w: World, a: Id)
    requires EffectsOk(w.starts, w.effects) && LeftUnstarted(w, a)
    ensures !Called(w.effects, a)
  {
    forall i | 0 <= i < |w.effects| ensures w.effects[i].action != a {
      assert w.effects[i] in w.effects;
    }
  }

  /** Cancelling commits exactly from PENDING or EXECUTING at the expected revision; cancelled while PENDING, an action's
      capability is never called, at any later point, unless a repair sets this action back to PENDING. */
  lemma {:induction false} CancelledIsNeverCalled(before: seq<Label>, a: Id, expected: nat, labels: seq<Label>)
    requires NeverReopens(before, a) && NeverReopens(labels, a)
    ensures var w := Run(BOOT, before);
            CancelActionTx(w.db, a, expected).res.Ok? <==>
              a in w.db.actions && w.db.actions[a].revision == expected && w.db.actions[a].status in {APending, AExecuting}
    ensures var w := Run(BOOT, before);
            CancelActionTx(w.db, a, expected).res.Ok? && w.db.actions[a].status == APending ==>
              !Called(Run(Next(w, Do(OfAction(CancelAction(a, expected)))), labels).effects, a)
  {
    hide Inv, StartsOk, EffectsOk, WorkersOk, Run, StartedOnceFor;
    var w := Run(BOOT, before);
    if CancelActionTx(w.db, a, expected).res.Ok? && w.db.actions[a].status == APending {
      BootOk();
      NothingStarted(a);
      RunStartsOnceFor(BOOT, before, a);
      var l := Do(OfAction(CancelAction(a, expected)));
      StepKeepsWorld(w, l);
      CancelLeaves(w, a, expected);
      RunLeavesUnstarted(Next(w, l), labels, a);
      WorldSound(Run(Next(w, l), labels));
      UnstartedIsUncalled(Run(Next(w, l), labels), a);
    }
  }

  lemma CancelLeaves(w: World, a: Id, expected: nat)
    requires StartedOnceFor(w.starts, w.db.actions, a) && CancelActionTx(w.db, a, expected).res.Ok?
    requires w.db.actions[a].status == APending
    ensures LeftUnstarted(Next(w, Do(OfAction(CancelAction(a, expected)))), a)
  {
  }
}
