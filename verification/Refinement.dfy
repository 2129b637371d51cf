/** What the store's methods do is what the kernel's runs do, so every law over runs holds of them. */
module Refinement {
  import opened Types
  import opened Execution
  import opened EvidencePipeline
  import opened Graphs
  import opened Invariants
  import opened Kernel
  import opened Recovery
  import opened Work

  datatype CrashPoint =
    | BeforeExecutingPersist | AfterExecutingBeforeExternal | BeforeObservationPersist | AfterObservationInsert
    | ActivatePlanCommit | SupersedePlanCommit | SupersedeBetweenWrites
    | CompleteObjectCommit | CompleteObjectAfterTransfer | ObligationTransferLoop
    | RepairAfterValidation | VerificationMidrun

  /** How a transaction with crash points ends: crashed with nothing changed, or exactly as specified. */
  predicate Ends(before: Db, after: Db, r: Result, tx: Tx, crash: bool) {
    if crash then r == Crashed && after == before else Tx(after, r) == tx
  }

  /** What execute_action leaves: nothing when the begin did not commit, the begin alone when the process died before the
      call or while recording, otherwise one call and the recorded reply. */
  predicate Executed(d: Db, armed: set<CrashPoint>, invoked: seq<Invocation>, d': Db, invoked': seq<Invocation>,
                     id: Id, revision: nat, plan: Option<Id>, gate: Gate, reply: Reply, r: Result)
  {
    var first := BeginTx(d, id, revision, plan, gate);
    var last := EndTx(first.db, Returned(id, revision, plan, reply));
    if !first.res.Ok? then Tx(d', r) == first && invoked' == invoked
    else if BeforeExecutingPersist in armed then r == Crashed && d' == d && invoked' == invoked
    else if AfterExecutingBeforeExternal in armed then r == Crashed && d' == first.db && invoked' == invoked
    else
      && invoked' == invoked + [Invocation(id, revision)]
      && Ends(first.db, d', r, last, reply.Value? && last.res.Ok?
                                     && (BeforeObservationPersist in armed || AfterObservationInsert in armed))
  }

  lemma RefusedBegin(d: Db, id: Id, revision: nat, plan: Option<Id>, gate: Gate)
    ensures BeginTx(d, id, revision, plan, gate).res.Ok? || BeginTx(d, id, revision, plan, gate).db == d
  {
  }

  lemma RefusedStart(d: Db, v: Id, action: Option<Id>)
    ensures StartVerificationTx(d, v, action).res.Ok? || StartVerificationTx(d, v, action).db == d
  {
    hide GateFault;
  }

  lemma BeginAndCall(w: World, p: nat, id: Id, revision: nat, plan: Option<Id>, gate: Gate, reply: Reply)
    requires p !in w.workers && BeginTx(w.db, id, revision, plan, gate).res.Ok?
    ensures var begun := Next(w, ExecuteBegin(p, id, revision, plan, gate));
            var called := Next(begun, ExecuteEffect(p, reply));
            && begun.db == called.db == BeginTx(w.db, id, revision, plan, gate).db && begun.effects == w.effects
            && p in called.workers && called.workers[p] == Returned(id, revision, plan, reply)
            && called.effects == w.effects + [Invocation(id, revision)]
  {
    hide BeginTx, StartOf;
  }

  lemma EndCommits(w: World, p: nat)
    requires p in w.workers && w.workers[p].Returned?
    ensures Next(w, ExecuteEnd(p)).db == EndTx(w.db, w.workers[p]).db && Next(w, ExecuteEnd(p)).effects == w.effects
  {
    hide EndTx;
  }

  lemma CrashKeeps(w: World)
    ensures Next(w, Crash).db == w.db && Next(w, Crash).effects == w.effects
  {
  }

  /** One execute_action, crashed or not, is a stretch of a run of an idle worker: begin, effect, end, cut short by a
      crash where it died. */
  lemma ExecuteIsARun(w: World, armed: set<CrashPoint>, d': Db, effects: seq<Invocation>, p: nat, id: Id, revision: nat,
                      plan: Option<Id>, gate: Gate, reply: Reply, r: Result)
    returns (labels: seq<Label>)
    requires p !in w.workers
    requires Executed(w.db, armed, w.effects, d', effects, id, revision, plan, gate, reply, r)
    ensures RepairFree(labels) && Run(w, labels).db == d' && Run(w, labels).effects == effects
  {
    hide EndTx, BeginTx, Next, Run;
    var begin, effect, end := ExecuteBegin(p, id, revision, plan, gate), ExecuteEffect(p, reply), ExecuteEnd(p);
    RefusedBegin(w.db, id, revision, plan, gate);
    if !BeginTx(w.db, id, revision, plan, gate).res.Ok? || BeforeExecutingPersist in armed {
      labels := [Crash];
      RunOne(w, Crash);
      CrashKeeps(w);
    } else {
      BeginAndCall(w, p, id, revision, plan, gate, reply);
      var called := Next(Next(w, begin), effect);
      if AfterExecutingBeforeExternal in armed {
        labels := [begin, Crash];
        RunTwo(w, begin, Crash);
        CrashKeeps(Next(w, begin));
      } else if r == Crashed && d' == called.db {
        labels := [begin, effect, Crash];
        RunThree(w, begin, effect, Crash);
        CrashKeeps(called);
      } else {
        labels := [begin, effect, end];
        RunThree(w, begin, effect, end);
        EndCommits(called, p);
      }
    }
  }

  /** run_verification is a worker's two steps, or its first and a crash. */
  lemma {:induction false} VerificationIsARun(w: World, p: nat, v: Id, action: Option<Id>, verdict: Verdict)
    requires p !in w.workers
    ensures var first := StartVerificationTx(w.db, v, action);
            && Run(w, [VerifyStart(p, v, action), VerifyEnd(p, verdict)]).db
               == (if first.res.Ok? then FinishVerificationTx(first.db, v, action, verdict).db else w.db)
            && Run(w, [VerifyStart(p, v, action), Crash]).db == (if first.res.Ok? then first.db else w.db)
  {
    hide StartVerificationTx, FinishVerificationTx, Run;
    RunTwo(w, VerifyStart(p, v, action), VerifyEnd(p, verdict));
    RunTwo(w, VerifyStart(p, v, action), Crash);
  }

  /** A recovering worker between two actions. */
  ghost predicate Sweeps(w: World, p: nat, d: Db, todo: set<Id>) { p in w.workers && w.workers[p] == Sweeping(todo) && w.db == d }

  /** One iteration of recover as steps of its worker. */
  lemma IterationIsARun(w: World, p: nat, d: Db, todo: set<Id>, a: Id) returns (labels: seq<Label>)
    requires Sweeps(w, p, d, todo) && a in todo && a in d.actions
    ensures RepairFree(labels) && Sweeps(Run(w, labels), p, RecoverOne(d, a), todo - {a})
  {
    hide Classify, MarkUnknownTx, FreezeActionTx, Run, Next;
    Classified(w, p, d, todo, a);
    var w1 := Next(w, RecoverClassify(p, a));
    if Classify(d, a) == IntegrityViolation {
      labels := [RecoverClassify(p, a), RecoverCommit(p)];
      RunTwo(w, RecoverClassify(p, a), RecoverCommit(p));
      HandledNext(w1, p);
    } else {
      labels := [RecoverClassify(p, a), RecoverLoad(p), RecoverCommit(p)];
      RunThree(w, RecoverClassify(p, a), RecoverLoad(p), RecoverCommit(p));
      Loaded(w1, p);
      HandledNext(Next(w1, RecoverLoad(p)), p);
    }
  }

  lemma Classified(w: World, p: nat, d: Db, todo: set<Id>, a: Id)
    requires Sweeps(w, p, d, todo) && a in todo && a in d.actions
    ensures var w' := Next(w, RecoverClassify(p, a));
            && w'.db == d && p in w'.workers
            && w'.workers[p] == if Classify(d, a) == IntegrityViolation then Freezing(a, todo - {a}) else Loading(a, todo - {a})
  {
    hide Classify;
  }

  lemma Loaded(w: World, p: nat)
    requires p in w.workers && w.workers[p].Loading? && w.workers[p].stuck in w.db.actions
    ensures var w' := Next(w, RecoverLoad(p));
            && w'.db == w.db && p in w'.workers
            && w'.workers[p] == Marking(w.workers[p].stuck, w.db.actions[w.workers[p].stuck].revision, w.workers[p].todo)
  {
  }

  lemma HandledNext(w: World, p: nat)
    requires p in w.workers && (w.workers[p].Freezing? || w.workers[p].Marking?)
    ensures var w' := Next(w, RecoverCommit(p));
            && p in w'.workers && w'.workers[p] == Sweeping(w.workers[p].todo)
            && w'.db == if w.workers[p].Freezing? then FreezeActionTx(w.db, w.workers[p].stuck).db
                        else MarkUnknownTx(w.db, w.workers[p].stuck, w.workers[p].revision).db
  {
    hide FreezeActionTx, MarkUnknownTx;
  }

  /** recover over any of the stuck actions, in any order, is a run of one worker: the recovery theorems are about
      states that runs reach. */
  lemma {:induction false} RecoverIsARun(w: World, p: nat, ids: seq<Id>) returns (labels: seq<Label>)
    requires Inv(w.db) && p !in w.workers && Distinct(ids) && Elements(ids) <= Stuck(w.db)
    ensures RepairFree(labels) && Sweeps(Run(w, labels), p, RecoverAll(w.db, ids), Stuck(w.db) - Elements(ids))
    decreases |ids|
  {
    hide Inv, Run, Recovered, RecoverOne;
    if ids == [] {
      labels := [RecoverScan(p)];
      RunOne(w, RecoverScan(p));
      assert Stuck(w.db) - Elements([]) == Stuck(w.db);
    } else {
      var rest, a := ids[..|ids| - 1], ids[|ids| - 1];
      var before := RecoverIsARun(w, p, rest);
      NothingRecovered(w.db);
      assert Elements(ids) == Elements(rest) + {a};
      RecoverAllFrom(w.db, w.db, {}, rest);
      RecoverOneMore(w.db, RecoverAll(w.db, rest), {} + Elements(rest), a);
      var more := IterationIsARun(Run(w, before), p, RecoverAll(w.db, rest), Stuck(w.db) - Elements(rest), a);
      labels := before + more;
      RunOn(w, before, more);
      assert Stuck(w.db) - Elements(rest) - {a} == Stuck(w.db) - Elements(ids);
    }
  }

  // ------------------------------------------------------- stretches of a run, composed

  predicate Idle(w: World, d: Db, effects: seq<Invocation>) { w.db == d && w.effects == effects && w.workers == map[] }

  ghost predicate Stretch(w: World, labels: seq<Label>, d: Db, effects: seq<Invocation>) {
    RepairFree(labels) && Idle(Run(w, labels), d, effects)
  }

  /** From any idle world with this store and these effects, some run without repair ends idle with those. */
  ghost predicate Leads(d: Db, effects: seq<Invocation>, d': Db, effects': seq<Invocation>) {
    forall w :: Idle(w, d, effects) ==> exists labels :: Stretch(w, labels, d', effects')
  }

  lemma LeadsNowhere(d: Db, effects: seq<Invocation>)
    ensures Leads(d, effects, d, effects)
  {
    forall w | Idle(w, d, effects) ensures exists labels :: Stretch(w, labels, d, effects) {
      assert Stretch(w, [], d, effects);
    }
  }

  lemma LeadsTransitive(a: Db, e: seq<Invocation>, b: Db, f: seq<Invocation>, c: Db, g: seq<Invocation>)
    requires Leads(a, e, b, f) && Leads(b, f, c, g)
    ensures Leads(a, e, c, g)
  {
    hide Run;
    forall w | Idle(w, a, e) ensures exists labels :: Stretch(w, labels, c, g) {
      var first :| Stretch(w, first, b, f);
      var second :| Stretch(Run(w, first), second, c, g);
      RunOn(w, first, second);
      assert Stretch(w, first + second, c, g);
    }
  }

  /** One call by a caller. */
  lemma LeadsBy(d: Db, effects: seq<Invocation>, c: Call)
    requires !c.OfRepair?
    ensures Leads(d, effects, Perform(d, c).db, effects)
  {
    hide Perform, Run;
    forall w | Idle(w, d, effects) ensures exists labels :: Stretch(w, labels, Perform(d, c).db, effects) {
      RunOne(w, Do(c));
      assert Stretch(w, [Do(c)], Perform(d, c).db, effects);
    }
  }

  lemma LeadsOn(a: Db, e: seq<Invocation>, d: Db, f: seq<Invocation>, c: Call)
    requires Leads(a, e, d, f) && !c.OfRepair?
    ensures Leads(a, e, Perform(d, c).db, f)
  {
    hide Leads, Perform;
    LeadsBy(d, f, c);
    LeadsTransitive(a, e, d, f, Perform(d, c).db, f);
  }

  lemma ExecuteLeads(d: Db, armed: set<CrashPoint>, effects: seq<Invocation>, d': Db, effects': seq<Invocation>, id: Id,
                     revision: nat, plan: Option<Id>, gate: Gate, reply: Reply, r: Result)
    requires Executed(d, armed, effects, d', effects', id, revision, plan, gate, reply, r)
    ensures Leads(d, effects, d', effects')
  {
    hide EndTx, BeginTx, Run, Executed;
    forall w | Idle(w, d, effects) ensures exists labels :: Stretch(w, labels, d', effects') {
      var labels := ExecuteIsARun(w, armed, d', effects', 0, id, revision, plan, gate, reply, r);
      RunOne(Run(w, labels), Crash);
      RunOn(w, labels, [Crash]);
      CrashKeeps(Run(w, labels));
      assert Stretch(w, labels + [Crash], d', effects');
    }
  }

  lemma VerificationLeads(d: Db, effects: seq<Invocation>, d': Db, v: Id, action: Option<Id>, verdict: Verdict)
    requires var first := StartVerificationTx(d, v, action);
             d' == (if first.res.Ok? then FinishVerificationTx(first.db, v, action, verdict).db else d)
             || d' == (if first.res.Ok? then first.db else d)
    ensures Leads(d, effects, d', effects)
  {
    hide StartVerificationTx, FinishVerificationTx, Run;
    forall w | Idle(w, d, effects) ensures exists labels :: Stretch(w, labels, d', effects) {
      VerificationIsARun(w, 0, v, action, verdict);
      var whole, cut := [VerifyStart(0, v, action), VerifyEnd(0, verdict)], [VerifyStart(0, v, action), Crash];
      EndsIdle(w, whole, effects);
      EndsIdle(w, cut, effects);
      assert Stretch(w, whole + [Crash], Run(w, whole).db, effects);
      assert Stretch(w, cut + [Crash], Run(w, cut).db, effects);
    }
  }

  lemma {:induction false} EndsIdle(w: World, labels: seq<Label>, effects: seq<Invocation>)
    requires RepairFree(labels) && |labels| == 2 && labels[0].VerifyStart? && (labels[1].VerifyEnd? || labels[1].Crash?)
    requires w.effects == effects
    ensures Stretch(w, labels + [Crash], Run(w, labels).db, effects)
  {
    hide StartVerificationTx, FinishVerificationTx, Run;
    RunTwo(w, labels[0], labels[1]);
    assert labels == [labels[0], labels[1]];
    RunOne(Run(w, labels), Crash);
    RunOn(w, labels, [Crash]);
  }

  lemma TransitionLeads(a: Db, e: seq<Invocation>, d: Db, f: seq<Invocation>, step: Id, status: StepStatus, revision: nat)
    requires Leads(a, e, d, f)
    ensures Leads(a, e, TransitionTx(d, step, OfStep(status), revision).db, f)
  {
    hide Leads, TransitionTx;
    LeadsOn(a, e, d, f, OfWork(Transition(step, OfStep(status), revision)));
  }

  lemma CompletionLeads(a: Db, e: seq<Invocation>, d: Db, f: seq<Invocation>, step: Id, revision: nat)
    requires Leads(a, e, d, f)
    ensures Leads(a, e, CompleteStepTx(d, step, revision).db, f)
  {
    hide Leads, CompleteStepTx;
    LeadsOn(a, e, d, f, OfWork(CompleteStep(step, revision)));
  }
}
