/** The remaining laws of the kernel over every run. Two points of a run are a reachable world `w`
    and a continuation Run(w, labels). */
module Theorems {
  import opened Types
  import opened Graphs
  import opened Obligations
  import opened Execution
  import opened EvidencePipeline
  import opened Invariants
  import opened RowWrites
  import opened ExecutionProofs
  import opened StrictProofs
  import opened Kernel
  import opened RunProofs
  import opened RunTheorems

  // -------------------------------------------------------- starts, confirmations, effects

  /** One confirmation, one start: a gated start is backed by a row confirmed for its action, revision,
      capability and arguments, and no row backs two. Repairs included. */
  lemma OneConfirmationOneStart(w: World)
    requires Reachable(w)
    ensures forall i :: 0 <= i < |w.starts| && w.starts[i].gated ==>
              && w.starts[i].action in w.db.actions
              && Backs(w.db.confirmations, w.starts[i].row, w.starts[i], w.db.actions[w.starts[i].action])
    ensures forall i, j :: 0 <= i < j < |w.starts| && w.starts[i].gated && w.starts[j].gated ==>
              w.starts[i].row != w.starts[j].row
  {
    hide Inv, EffectsOk, WorkersOk, Reachable;
    ReachableOk(w);
    forall i | 0 <= i < |w.starts| && w.starts[i].gated
      ensures w.starts[i].action in w.db.actions
        && Backs(w.db.confirmations, w.starts[i].row, w.starts[i], w.db.actions[w.starts[i].action])
    {
      assert StartOk(w.starts[i], w.db);
    }
  }

  /** Every invocation of a capability follows a committed start of its own, repairs included. */
  lemma EffectsFollowStarts(w: World)
    requires Reachable(w)
    ensures forall e :: e in w.effects ==>
              HasStart(w.starts, e.action, e.start)
              && e.action in w.db.actions && e.start < w.db.actions[e.action].revision
    ensures forall i, j :: 0 <= i < j < |w.effects| ==> w.effects[i] != w.effects[j]
  {
    hide Inv, WorkersOk, Reachable, Backs;
    ReachableOk(w);
    forall e | e in w.effects
      ensures e.action in w.db.actions && e.start < w.db.actions[e.action].revision
    {
      var i :| 0 <= i < |w.starts| && w.starts[i].action == e.action && w.starts[i].revision == e.start;
      assert StartOk(w.starts[i], w.db);
    }
  }

  // ----------------------------------------------------------------------------- graphs

  /** Committed dependency graphs are acyclic, repairs included. */
  lemma GraphsStayAcyclic(w: World, plan: Id)
    requires Reachable(w) && plan in w.db.plans
    ensures Acyclic(w.db.plans[plan].graph)
  {
    hide Inv, StartsOk, EffectsOk, WorkersOk, Reachable, Acyclic;
    ReachableOk(w);
    WorkFacts(w.db);
  }

  /** Without repair a step's depends_on is its entry in the graph of its plan. */
  lemma GraphsMirrorSteps(w: World, step: Id)
    requires CleanlyReachable(w) && step in w.db.steps
    ensures var s := w.db.steps[step];
            s.planId in w.db.plans && step in w.db.plans[s.planId].graph && w.db.plans[s.planId].graph[step] == s.dependsOn
  {
    hide Inv, WorldOk, CleanlyReachable, Reachable;
    CleanOk(w);
  }

  // ------------------------------------------------------------------------ observations

  /** Repairs included, OBSERVED implies an Observation. */
  lemma ObservedHasObservation(w: World, a: Id)
    requires Reachable(w) && a in w.db.actions && w.db.actions[a].status == AObserved
    ensures Observed(w.db, a)
  {
    hide Inv, WorldOk, Reachable;
    ReachableOk(w);
    InvHas(w.db, ObservedIsBacked);
    assert HasObservation(w.db.observations, a);
  }

  /** Without repair: exactly one Observation when OBSERVED, none otherwise. */
  lemma ObservationsMatchStatus(w: World, a: Id)
    requires CleanlyReachable(w) && a in w.db.actions
    ensures var obs := set o | o in w.db.observations && w.db.observations[o].actionId == a;
            if w.db.actions[a].status == AObserved then exists o :: obs == {o} else obs == {}
    ensures Classify(w.db, a) != IntegrityViolation
  {
    hide Inv, WorldOk, CleanlyReachable, Reachable;
    CleanOk(w);
    if w.db.actions[a].status == AObserved {
      ObservedHasObservation(w, a);
      var o :| o in w.db.observations && w.db.observations[o].actionId == a;
      assert (set x | x in w.db.observations && w.db.observations[x].actionId == a) == {o};
    }
  }

  /** So recovery never freezes an action in a run without repair. */
  lemma {:induction false} RecoveryNeverFreezes(labels: seq<Label>, p: nat)
    requires RepairFree(labels)
    ensures p in Run(BOOT, labels).workers ==> !Run(BOOT, labels).workers[p].Freezing?
    decreases |labels|
  {
    hide Next, Classify;
    if labels != [] {
      var before := labels[..|labels| - 1];
      var l := labels[|labels| - 1];
      RecoveryNeverFreezes(before, p);
      assert CleanlyReachable(Run(BOOT, before));
      if l.RecoverClassify? && l.stuck in Run(BOOT, before).db.actions {
        ObservationsMatchStatus(Run(BOOT, before), l.stuck);
      }
      if p in Run(BOOT, labels).workers && Run(BOOT, labels).workers[p].Freezing? {
        OnlyClassifyFreezes(Run(BOOT, before), l, p);
      }
    }
  }

  lemma OnlyClassifyFreezes(w: World, l: Label, p: nat)
    requires p in Next(w, l).workers && Next(w, l).workers[p].Freezing?
    ensures (p in w.workers && w.workers[p].Freezing?)
         || (l.RecoverClassify? && l.stuck in w.db.actions && Classify(w.db, l.stuck) == IntegrityViolation)
  {
    hide Perform, BeginTx, MarkObservedTx, MarkUnknownTx, MarkFailedTx, FreezeActionTx, StartVerificationTx,
         FinishVerificationTx, Classify;
  }

  // -------------------------------------------------------------------------- obligations

  /** No obligation disappears or loses history, repairs included; without repair a closed one never changes. */
  lemma {:induction false} ObligationsPersist(w: World, labels: seq<Label>, o: Id)
    requires Reachable(w) && o in w.db.obligations
    ensures var d' := Run(w, labels).db;
            o in d'.obligations && w.db.obligations[o].history <= d'.obligations[o].history
            && d'.obligations[o].origin == w.db.obligations[o].origin
    ensures CleanlyReachable(w) && RepairFree(labels) && w.db.obligations[o].disposition != Open ==>
              Run(w, labels).db.obligations[o] == w.db.obligations[o]
  {
    hide Inv, Strict, Run, WorldOk, CleanlyReachable, Reachable, Evolves, PointerForward, RetriesAccounted;
    Onward(w, labels);
  }

  /** Resolution provenance: without repair a RESOLVED obligation has a claim version citing evidence of an
      Observation of its origin action, which therefore is OBSERVED. */
  lemma ResolvedIsEstablished(w: World, o: Id)
    requires CleanlyReachable(w) && o in w.db.obligations && w.db.obligations[o].disposition == Resolved
    ensures EffectEstablished(w.db.claims, w.db.evidence, w.db.observations, w.db.obligations[o].origin)
    ensures var a := w.db.obligations[o].origin;
            a in w.db.actions && w.db.actions[a].status == AObserved
  {
    hide Inv, WorldOk, CleanlyReachable, Reachable;
    CleanOk(w);
    EstablishedIsObserved(w.db, w.db.obligations[o].origin);
  }

  lemma EstablishedIsObserved(d: Db, a: Id)
    requires ObservationsExact(d.actions, d.observations)
    requires EffectEstablished(d.claims, d.evidence, d.observations, a)
    ensures a in d.actions && d.actions[a].status == AObserved
  {
    var k, e :| k in d.claims && e in d.claims[k].basedOn && EvidenceOf(d.evidence, d.observations, e, a);
  }

  /** Hence an obligation about an UNKNOWN_OUTCOME action, which is every one recovery or execute_action creates,
      can without repair never be resolved: at no later point does resolve_obligation commit, whatever
      verification it is given. Abandonment is the only way out of OPEN. */
  lemma {:induction false} UnknownNeverResolves(w: World, labels: seq<Label>, o: Id, v: Id, expected: nat)
    requires CleanlyReachable(w) && RepairFree(labels)
    requires o in w.db.obligations && w.db.obligations[o].disposition != Resolved
    requires w.db.obligations[o].origin in w.db.actions
    requires w.db.actions[w.db.obligations[o].origin].status == AUnknown
    ensures var d' := Run(w, labels).db;
            o in d'.obligations && d'.obligations[o].disposition != Resolved
            && !ResolveObligation(d', o, v, expected).res.Ok?
  {
    hide Inv, Strict, Run, WorldOk, CleanlyReachable, Reachable, Evolves, PointerForward, RetriesAccounted,
         EffectEstablished, ObservationsExact, Concerns;
    CleanOk(w);
    Onward(w, labels);
    var w' := Run(w, labels);
    CleanlyOnward(w, labels);
    var a := w.db.obligations[o].origin;
    assert ActionForward(w.db.actions[a], w'.db.actions[a]);
    if w'.db.obligations[o].disposition == Resolved { ResolvedIsEstablished(w', o); }
    if ResolveObligation(w'.db, o, v, expected).res.Ok? {
      ConcernsEstablishes(w'.db, w'.db.verifications[v].verifies, a);
      CleanOk(w');
      EstablishedNeedsObserved(w'.db, a);
    }
  }

  lemma EstablishedNeedsObserved(d: Db, a: Id)
    requires Strict(d) && EffectEstablished(d.claims, d.evidence, d.observations, a)
    ensures a in d.actions && d.actions[a].status == AObserved
  {
    EstablishedIsObserved(d, a);
  }

  lemma {:induction false} Onward(w: World, labels: seq<Label>)
    requires Reachable(w)
    ensures AllTables(w.db, Run(w, labels).db) && Reachable(Run(w, labels))
    ensures CleanlyReachable(w) && RepairFree(labels) ==> StrictEvolves(w.db, Run(w, labels).db)
  {
    hide Inv, Strict, StartsOk, EffectsOk, WorkersOk, StartedOnce, Run, AllTables, StrictEvolves;
    ReachableOk(w);
    RunKeeps(w, labels);
    TablesOf(w.db, Run(w, labels).db);
    var before :| w == Run(BOOT, before);
    RunOn(BOOT, before, labels);
    if CleanlyReachable(w) && RepairFree(labels) {
      CleanOk(w);
      RunStrict(w, labels);
    }
  }

  lemma {:induction false} CleanlyOnward(w: World, labels: seq<Label>)
    requires CleanlyReachable(w) && RepairFree(labels)
    ensures CleanlyReachable(Run(w, labels))
  {
    hide Run;
    var before :| RepairFree(before) && w == Run(BOOT, before);
    RunOn(BOOT, before, labels);
    assert RepairFree(before + labels);
  }

  // ------------------------------------------------------------------------ plan pointers

  /** active_plan_id is null or a plan of that task, repairs included. */
  lemma PointerSound(w: World, t: Id)
    requires Reachable(w) && t in w.db.tasks && w.db.tasks[t].activePlan.Some?
    ensures var p := w.db.tasks[t].activePlan.value;
            p in w.db.plans && w.db.plans[p].taskId == t
  {
    hide Inv, StartsOk, EffectsOk, WorkersOk, Reachable, Acyclic;
    ReachableOk(w);
    WorkFacts(w.db);
  }

  /** Without repair: once the pointer has moved from p to another plan, p is SUPERSEDED, CANCELLED or FAILED
      and is never pointed at again. */
  lemma {:induction false} LeftPlanNeverReturns(w: World, more: seq<Label>, later: seq<Label>, t: Id)
    requires CleanlyReachable(w) && RepairFree(more) && RepairFree(later) && t in w.db.tasks
    requires t in Run(w, more).db.tasks && PointerMoved(w.db.tasks[t], Run(w, more).db.tasks[t])
    ensures var p := w.db.tasks[t].activePlan.value;
            && p in Run(w, more).db.plans && Displaceable(Run(w, more).db.plans[p].status)
            && t in Run(Run(w, more), later).db.tasks
            && Run(Run(w, more), later).db.tasks[t].activePlan != Some(p)
  {
    hide Inv, Strict, Run, WorldOk, CleanlyReachable, Reachable, Evolves, RowsForward, RetriesAccounted;
    CleanOk(w);
    Onward(w, more);
    CleanlyOnward(w, more);
    Onward(Run(w, more), later);
  }

  /** Without repair the links from superseded plans to their different successors close no cycle. */
  lemma SupersessionAcyclic(w: World)
    requires CleanlyReachable(w)
    ensures Acyclic(Links(w.db.plans))
  {
    hide Inv, WorldOk, CleanlyReachable, Reachable, Acyclic;
    CleanOk(w);
  }

  // ---------------------------------------------------------------------- terminal statuses

  /** Without repair terminal statuses are absorbing; a terminal plan can only still become SUPERSEDED. */
  lemma {:induction false} TerminalIsForever(w: World, labels: seq<Label>, i: Id)
    requires CleanlyReachable(w) && RepairFree(labels)
    ensures var d, d' := w.db, Run(w, labels).db;
            && (i in d.goals && GoalTerminal(d.goals[i].status) ==> i in d'.goals && d'.goals[i].status == d.goals[i].status)
            && (i in d.tasks && TaskTerminal(d.tasks[i].status) ==>
                  i in d'.tasks && d'.tasks[i].status == d.tasks[i].status && d'.tasks[i].activePlan == d.tasks[i].activePlan)
            && (i in d.plans && PlanTerminal(d.plans[i].status) ==>
                  i in d'.plans && (d'.plans[i].status == d.plans[i].status || d'.plans[i].status == PSuperseded))
            && (i in d.steps && StepTerminal(d.steps[i].status) ==> i in d'.steps && d'.steps[i].status == d.steps[i].status)
            && (i in d.actions && ActionTerminal(d.actions[i].status) ==>
                  i in d'.actions && d'.actions[i].status == d.actions[i].status)
  {
    hide Inv, Strict, Run, WorldOk, CleanlyReachable, Reachable, Evolves, PointerForward, RetriesAccounted;
    CleanOk(w);
    Onward(w, labels);
  }

  // ------------------------------------------------------------------------------- retries

  /** Without repair, what a task's attempts_used grew by is the number of retries that reached it meanwhile,
      and growing never passes max_attempts. */
  lemma {:induction false} RetriesAreCharged(w: World, labels: seq<Label>, t: Id)
    requires CleanlyReachable(w) && RepairFree(labels) && t in w.db.tasks
    ensures var d, d' := w.db, Run(w, labels).db;
            && t in d'.tasks
            && d'.tasks[t].attemptsUsed - d.tasks[t].attemptsUsed == |Retries(d', t)| - |Retries(d, t)|
            && (d'.tasks[t].attemptsUsed != d.tasks[t].attemptsUsed ==> d'.tasks[t].attemptsUsed <= d.tasks[t].maxAttempts)
  {
    hide Inv, Strict, Run, WorldOk, CleanlyReachable, Reachable, Evolves, PointerForward, Retries;
    CleanOk(w);
    Onward(w, labels);
    assert TaskForward(w.db.tasks[t], Run(w, labels).db.tasks[t]);
  }

  /** retry_of links form a forest, repairs included: each leads to an older attempt with the same step,
      capability and arguments. */
  lemma RetriesFormForest(w: World, a: Id)
    requires Reachable(w) && a in w.db.actions && w.db.actions[a].retryOf.Some?
    ensures var b := w.db.actions[a].retryOf.value;
            && b in w.db.actions && b.n < a.n
            && w.db.actions[b].stepId == w.db.actions[a].stepId
            && w.db.actions[b].capability == w.db.actions[a].capability
            && w.db.actions[b].arguments == w.db.actions[a].arguments
  {
    hide Inv, StartsOk, EffectsOk, WorkersOk, Reachable, Acyclic, ObservedBacked;
    ReachableOk(w);
    ActionFacts(w.db);
    assert RetryLink(w.db.actions, a);
  }

  /** A retry writes a new attempt and leaves the retried one, and every other, as it was. */
  lemma RetryLeavesAttempts(d: Db, a: Id, expectedTask: nat)
    requires Inv(d) && RetryTx(d, a, expectedTask).res.Ok?
    ensures var d', n := RetryTx(d, a, expectedTask).db, RetryTx(d, a, expectedTask).res.made.value;
            && n !in d.actions && d'.actions.Keys == d.actions.Keys + {n}
            && (forall i :: i in d.actions ==> d'.actions[i] == d.actions[i])
            && d'.actions[n].status == APending && d'.actions[n].confirmationId == None
            && d'.actions[n].retryOf == Some(a) && d'.actions[n].stepId == d.actions[a].stepId
            && d'.actions[n].capability == d.actions[a].capability && d'.actions[n].arguments == d.actions[a].arguments
  {
    hide Inv, OwningTask;
    MintedKeys(d);
  }

  // -------------------------------------------------------------------------------- claims

  ghost predicate VersionsExactly(claims: map<ClaimKey, Claim>, id: Id, n: nat) {
    && (forall v: nat :: ClaimKey(id, v) in claims ==> 1 <= v <= n)
    && (forall v: nat :: 1 <= v <= n ==> ClaimKey(id, v) in claims)
  }

  /** A claim's versions are exactly 1..n; every HIGH version cites evidence with an existing origin Observation. */
  lemma ClaimVersionsExact(w: World, id: Id)
    requires Reachable(w) && ClaimExists(w.db, id)
    ensures exists n :: n >= 1 && VersionsExactly(w.db.claims, id, n)
    ensures forall k :: k in w.db.claims && w.db.claims[k].confidence == High ==>
              exists e :: e in w.db.claims[k].basedOn && e in w.db.evidence && w.db.evidence[e].origin.Some?
                          && w.db.evidence[e].origin.value in w.db.observations
  {
    hide Inv, StartsOk, EffectsOk, WorkersOk, Reachable, PassGrounded, ObservedBacked;
    ReachableOk(w);
    EvidenceFacts(w.db);
    var k :| k in w.db.claims && k.id == id;
    assert k.version in Versions(w.db.claims, id);
    var n := MaxVersion(Versions(w.db.claims, id));
    assert ClaimKey(id, n) in w.db.claims;
    VersionsFromOne(w.db.claims, w.db.evidence, id, n);
    forall v: nat | ClaimKey(id, v) in w.db.claims ensures 1 <= v <= n {
      assert ClaimKey(id, v).version in Versions(w.db.claims, id);
    }
    assert VersionsExactly(w.db.claims, id, n);
    forall k | k in w.db.claims && w.db.claims[k].confidence == High
      ensures exists e :: e in w.db.claims[k].basedOn && e in w.db.evidence && w.db.evidence[e].origin.Some?
                          && w.db.evidence[e].origin.value in w.db.observations
    {
      assert ClaimJustified(w.db.claims[k], w.db.evidence);
      var e :| e in w.db.claims[k].basedOn && e in w.db.evidence && w.db.evidence[e].origin.Some?;
    }
  }

  /** Claim versions, evidence and observations never change and never disappear, repairs included. */
  lemma {:induction false} EpistemicRecordsImmutable(w: World, labels: seq<Label>)
    requires Reachable(w)
    ensures var d, d' := w.db, Run(w, labels).db;
            && (forall k :: k in d.claims ==> k in d'.claims && d'.claims[k] == d.claims[k])
            && (forall e :: e in d.evidence ==> e in d'.evidence && d'.evidence[e] == d.evidence[e])
            && (forall o :: o in d.observations ==> o in d'.observations && d'.observations[o] == d.observations[o])
  {
    hide Inv, Strict, Run, WorldOk, CleanlyReachable, Reachable, Evolves, StrictEvolves;
    Onward(w, labels);
  }
}
