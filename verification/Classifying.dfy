/** What classify_action_state says after a restart (v5/execution.py:408-431), and what it does not know. */
module Classifying {
  import opened Types
  import opened Execution
  import opened Kernel
  import opened RunTheorems
  import opened Theorems
  import opened StalePlans
  import opened Attempts
  import opened Reopening

  /** The five answers, each by the rows alone. */
  lemma ClassifyMeans(d: Db, a: Id)
    requires a in d.actions
    ensures var s, seen := d.actions[a].status, exists o :: o in d.observations && d.observations[o].actionId == a;
            && (Classify(d, a) == IntegrityViolation <==> seen && s != AObserved)
            && (Classify(d, a) == KnownCompleted <==> s == AObserved)
            && (Classify(d, a) == KnownStarted <==> s == AExecuting && !seen)
            && (Classify(d, a) == UnknownOutcome <==> s == AUnknown && !seen)
            && (Classify(d, a) == KnownNotStarted <==> s in {APending, AFailed, ACancelled} && !seen)
  {
  }

  /** Without repair KNOWN_COMPLETED is said exactly of the actions with an Observation, and a PENDING action, which is
      classified KNOWN_NOT_STARTED, was never called. */
  lemma ClassifiedTruly(w: World, a: Id)
    requires CleanlyReachable(w) && a in w.db.actions
    ensures Classify(w.db, a) == KnownCompleted <==> exists o :: o in w.db.observations && w.db.observations[o].actionId == a
    ensures w.db.actions[a].status == APending ==> Classify(w.db, a) == KnownNotStarted && !Called(w.effects, a)
  {
    hide Classify, Run, CleanlyReachable;
    ClassifyMeans(w.db, a);
    ObservationsMatchStatus(w, a);
    if w.db.actions[a].status == AObserved {
      CleanIsReachable(w);
      ObservedHasObservation(w, a);
    }
    EffectAtMostOnce(w);
  }

  /** But KNOWN_NOT_STARTED is no proof that nothing happened: an action cancelled while its capability was out is classified
      so although it was called. From any store with a PENDING action that can start: begun, called, cancelled. */
  lemma {:induction false} CancelledMayHaveBeenCalled(w: World, a: Id, p: nat, reply: Reply)
    requires CleanlyReachable(w) && p !in w.workers
    requires a in w.db.actions && Ready(w.db, a, APending, w.db.actions[a].revision)
    ensures var r := w.db.actions[a].revision;
            var w' := Run(w, [ExecuteBegin(p, a, r, None, NoGate), ExecuteEffect(p, reply), Do(OfAction(CancelAction(a, r + 1)))]);
            && CleanlyReachable(w') && Called(w'.effects, a)
            && a in w'.db.actions && w'.db.actions[a].status == ACancelled && Classify(w'.db, a) == KnownNotStarted
  {
    hide Classify, Run, CleanlyReachable, Next;
    var r := w.db.actions[a].revision;
    var labels := [ExecuteBegin(p, a, r, None, NoGate), ExecuteEffect(p, reply), Do(OfAction(CancelAction(a, r + 1)))];
    RunThree(w, labels[0], labels[1], labels[2]);
    CleanlyOnward(w, labels);
    var w1 := Next(w, labels[0]);
    Begins(w, a, p);
    Cancels(w1, a, p, r, reply);
    ClassifyMeans(Run(w, labels).db, a);
    ObservationsMatchStatus(Run(w, labels), a);
  }

  lemma Begins(w: World, a: Id, p: nat)
    requires p !in w.workers && a in w.db.actions && Ready(w.db, a, APending, w.db.actions[a].revision)
    ensures var r := w.db.actions[a].revision;
            var w1 := Next(w, ExecuteBegin(p, a, r, None, NoGate));
            && p in w1.workers && w1.workers[p] == Started(a, r, None)
            && a in w1.db.actions && w1.db.actions[a].revision == r + 1 && w1.db.actions[a].status == AExecuting
  {
    hide BeginTx, StartOf;
    BeginCommitsIff(w.db, a, w.db.actions[a].revision, None, NoGate);
  }

  lemma Cancels(w: World, a: Id, p: nat, r: nat, reply: Reply)
    requires p in w.workers && w.workers[p] == Started(a, r, None)
    requires a in w.db.actions && w.db.actions[a].revision == r + 1 && w.db.actions[a].status == AExecuting
    ensures var w' := Next(Next(w, ExecuteEffect(p, reply)), Do(OfAction(CancelAction(a, r + 1))));
            && Called(w'.effects, a) && a in w'.db.actions && w'.db.actions[a].status == ACancelled
  {
    hide CancelActionTx;
    CancelledCommitsIff(w.db, a, r + 1);
    var called := Next(w, ExecuteEffect(p, reply));
    assert called.effects[|w.effects|].action == a;
  }
}
