/** What every run keeps, step by step. */
module RunProofs {
  import opened Types
  import opened Safety
  import opened Execution
  import opened EvidencePipeline
  import opened Invariants
  import opened RowWrites
  import opened WorkProofs
  import opened ExecutionProofs
  import opened StrictRows
  import opened StrictProofs
  import opened Kernel

  // ------------------------------------------------------------------- the store

  lemma PerformKeeps(d: Db, c: Call)
    requires Inv(d)
    ensures Keeps(d, Perform(d, c).db)
  {
    hide Inv, Keeps, Work.Apply, Execution.Apply, EvidencePipeline.Apply, Obligations.Apply, Safety.Apply, Repair.Apply;
    match c
    case OfWork(x) => WorkKeeps(d, x);
    case OfAction(x) => ActionCallKeeps(d, x);
    case OfEvidence(x) => EvidenceCallKeeps(d, x);
    case OfObligation(x) => ObligationCallKeeps(d, x);
    case OfSafety(x) => SafetyCallKeeps(d, x);
    case OfRepair(x) => RepairCallKeeps(d, x);
  }

  lemma PerformStrict(d: Db, c: Call)
    requires Inv(d) && Strict(d) && !c.OfRepair?
    ensures Strictly(d, Perform(d, c).db)
  {
    hide Inv, Strict, Strictly, Work.Apply, Execution.Apply, EvidencePipeline.Apply, Obligations.Apply, Safety.Apply;
    match c
    case OfWork(x) => WorkStrict(d, x);
    case OfAction(x) => ActionCallStrict(d, x);
    case OfEvidence(x) => EvidenceCallStrict(d, x);
    case OfObligation(x) => ObligationCallStrict(d, x);
    case OfSafety(x) => SafetyCallStrict(d, x);
  }

  /** The action transaction a label commits, if it commits one outside `Do`. */
  function Inner(w: World, l: Label): Option<ActionCall> {
    match l
    case ExecuteBegin(p, a, e, plan, gate) => if p in w.workers then None else Some(Begin(a, e, plan, gate))
    case ExecuteEnd(p) =>
      if p !in w.workers || !w.workers[p].Returned? then None
      else
        var x := w.workers[p];
        Some(match x.reply
             case Value(raw) => MarkObserved(x.action, x.start + 1, raw, x.plan)
             case DefiniteNoEffect => MarkFailed(x.action, x.start + 1, true)
             case OtherFailure => MarkUnknown(x.action, x.start + 1))
    case RecoverCommit(p) =>
      if p !in w.workers then None
      else (match w.workers[p]
            case Freezing(a, _) => Some(FreezeAction(a))
            case Marking(a, r, _) => Some(MarkUnknown(a, r))
            case _ => None)
    case _ => None
  }

  function Committed(d: Db, c: Option<ActionCall>): Db { if c.None? then d else Execution.Apply(d, c.value).db }

  /** The store a step commits, operation by operation. */
  ghost function CommitOf(w: World, l: Label): Db {
    match l
    case Do(c) => Perform(w.db, c).db
    case VerifyStart(p, v, a) => if p in w.workers then w.db else StartVerificationTx(w.db, v, a).db
    case VerifyEnd(p, verdict) =>
      if p !in w.workers || !w.workers[p].Evaluating? then w.db
      else FinishVerificationTx(w.db, w.workers[p].verification, w.workers[p].forAction, verdict).db
    case _ => Committed(w.db, Inner(w, l))
  }

  lemma BeginOrNothing(d: Db, a: Id, e: nat, plan: Option<Id>, gate: Gate)
    ensures BeginTx(d, a, e, plan, gate).res.Ok? || BeginTx(d, a, e, plan, gate).db == d
  {
    hide PlanMismatchReason, GateOpens;
  }

  lemma StartOrNothing(d: Db, v: Id, a: Option<Id>)
    ensures StartVerificationTx(d, v, a).res.Ok? || StartVerificationTx(d, v, a).db == d
  {
    hide GateFault;
  }

  /** Every step's commit is one of the operations, or nothing. */
  lemma StepCommits(w: World, l: Label)
    ensures Next(w, l).db == CommitOf(w, l)
  {
    hide Perform, BeginTx, MarkObservedTx, MarkUnknownTx, MarkFailedTx, FreezeActionTx, StartVerificationTx,
         FinishVerificationTx, Classify;
    match l
    case ExecuteBegin(_, a, e, plan, gate) => BeginOrNothing(w.db, a, e, plan, gate);
    case VerifyStart(_, v, a) => StartOrNothing(w.db, v, a);
    case _ =>
  }

  lemma StepKeepsDb(w: World, l: Label)
    requires Inv(w.db)
    ensures Keeps(w.db, Next(w, l).db)
  {
    hide Inv, Keeps, Next, Perform, Committed, StartVerificationTx, FinishVerificationTx, AllMinted;
    StepCommits(w, l);
    MintedKeys(w.db);
    match l
    case Do(c) => PerformKeeps(w.db, c);
    case VerifyStart(_, v, a) => StartVerificationKeeps(w.db, v, a);
    case VerifyEnd(p, verdict) =>
      if p in w.workers && w.workers[p].Evaluating? {
        FinishVerificationKeeps(w.db, w.workers[p].verification, w.workers[p].forAction, verdict);
      }
    case _ =>
      InnerKeeps(w.db, Inner(w, l));
  }

  lemma InnerKeeps(d: Db, c: Option<ActionCall>)
    requires Inv(d)
    ensures Keeps(d, Committed(d, c))
  {
    hide Inv, Keeps, Execution.Apply, AllMinted;
    MintedKeys(d);
    if c.Some? { ActionCallKeeps(d, c.value); }
  }

  lemma InnerStrict(d: Db, c: Option<ActionCall>)
    requires Inv(d) && Strict(d)
    ensures Strictly(d, Committed(d, c))
  {
    hide Inv, Strict, Strictly, Execution.Apply;
    Unmoved(d);
    if c.Some? { ActionCallStrict(d, c.value); }
  }

  lemma StepStrictDb(w: World, l: Label)
    requires Inv(w.db) && Strict(w.db) && !IsRepair(l)
    ensures Strictly(w.db, Next(w, l).db)
  {
    hide Inv, Strict, Strictly, Next, Perform, Committed, StartVerificationTx, FinishVerificationTx;
    StepCommits(w, l);
    Unmoved(w.db);
    match l
    case Do(c) => PerformStrict(w.db, c);
    case VerifyStart(_, v, a) => StartVerificationStrict(w.db, v, a);
    case VerifyEnd(p, verdict) =>
      if p in w.workers && w.workers[p].Evaluating? {
        FinishVerificationStrict(w.db, w.workers[p].verification, w.workers[p].forAction, verdict);
      }
    case _ =>
      InnerStrict(w.db, Inner(w, l));
  }

  // --------------------------------------------------------------- starts and effects

  /** The row a gated start rests on: confirmed, and staged for this action at this revision. */
  predicate Backs(confirmations: map<Id, Confirmation>, row: Option<Id>, s: Start, a: Action) {
    && row.Some? && row.value in confirmations
    && confirmations[row.value].confirmedAt.Some?
    && confirmations[row.value].actionId == s.action
    && confirmations[row.value].actionRevision == s.revision
    && confirmations[row.value].capability == a.capability
    && confirmations[row.value].arguments == a.arguments
  }

  /** A committed start lies strictly below the action's revision and is backed when gated. */
  predicate StartOk(s: Start, d: Db) {
    && s.action in d.actions
    && s.revision < d.actions[s.action].revision
    && (s.gated ==> Backs(d.confirmations, s.row, s, d.actions[s.action]))
  }

  /** Starts of one action come at growing revisions. */
  predicate StartsGrow(starts: seq<Start>) {
    forall i, j :: 0 <= i < j < |starts| && starts[i].action == starts[j].action ==>
      starts[i].revision < starts[j].revision
  }

  predicate StartsOk(starts: seq<Start>, d: Db) {
    (forall i :: 0 <= i < |starts| ==> StartOk(starts[i], d)) && StartsGrow(starts)
  }

  predicate HasStart(starts: seq<Start>, action: Id, revision: nat) {
    exists i :: 0 <= i < |starts| && starts[i].action == action && starts[i].revision == revision
  }

  /** Every invocation follows its own committed start. */
  predicate EffectsOk(starts: seq<Start>, effects: seq<Invocation>) {
    && (forall e :: e in effects ==> HasStart(starts, e.action, e.start))
    && (forall i, j :: 0 <= i < j < |effects| ==> effects[i] != effects[j])
  }

  /** A worker about to invoke holds a start of its own that nobody has invoked for. */
  predicate WorkersOk(w: World) {
    && (forall p :: p in w.workers && w.workers[p].Started? ==>
          && HasStart(w.starts, w.workers[p].action, w.workers[p].start)
          && Invocation(w.workers[p].action, w.workers[p].start) !in w.effects)
    && (forall p, q :: p in w.workers && q in w.workers && p != q && w.workers[p].Started? && w.workers[q].Started? ==>
          w.workers[p].action != w.workers[q].action || w.workers[p].start != w.workers[q].start)
  }

  ghost predicate WorldOk(w: World) {
    Inv(w.db) && StartsOk(w.starts, w.db) && EffectsOk(w.starts, w.effects) && WorkersOk(w)
  }

  lemma StartsStay(starts: seq<Start>, d: Db, d': Db)
    requires StartsOk(starts, d) && ActionsEvolve(d.actions, d'.actions)
    requires ConfirmationsEvolve(d.confirmations, d'.confirmations)
    ensures StartsOk(starts, d')
  {
    forall i | 0 <= i < |starts| ensures StartOk(starts[i], d') {
      assert StartOk(starts[i], d);
      var a := starts[i].action;
      assert ActionStep(d.actions[a], d'.actions[a]);
      if starts[i].gated {
        assert ConfirmationStep(d.confirmations[starts[i].row.value], d'.confirmations[starts[i].row.value]);
      }
    }
  }

  /** A begin that commits is a new start, later than all earlier ones of its action. */
  lemma StartAdded(starts: seq<Start>, d: Db, a: ActionCall)
    requires StartsOk(starts, d) && StartOf(d, a) != [] && Inv(d)
    ensures StartsOk(starts + StartOf(d, a), Execution.Apply(d, a).db)
    ensures !HasStart(starts, a.action, a.expected)
    ensures HasStart(starts + StartOf(d, a), a.action, a.expected)
  {
    hide Inv, PlanMismatchReason, LatestConfirmed;
    var d' := Execution.Apply(d, a).db;
    ActionCallKeeps(d, a);
    TablesOf(d, d');
    StartsStay(starts, d, d');
    var s := StartOf(d, a)[0];
    assert StartOk(s, d') by { BeginBacked(d, a); }
    assert forall i :: 0 <= i < |starts| && starts[i].action == a.action ==> StartOk(starts[i], d) && starts[i].revision < a.expected;
    assert (starts + [s])[|starts|] == s;
  }

  lemma BeginBacked(d: Db, a: ActionCall)
    requires StartOf(d, a) != []
    ensures StartOk(StartOf(d, a)[0], Execution.Apply(d, a).db)
    ensures d.actions[a.action].revision == a.expected
    ensures d.actions[a.action].status == APending && Execution.Apply(d, a).db.actions[a.action].status == AExecuting
  {
    hide PlanMismatchReason;
  }

  // ---------------------------------------------------------------------- every run

  /** The start a step logs. */
  function Logged(w: World, l: Label): seq<Start> {
    match l
    case Do(c) => if c.OfAction? then StartOf(w.db, c.action) else []
    case ExecuteBegin(p, a, e, plan, gate) => if p in w.workers then [] else StartOf(w.db, Begin(a, e, plan, gate))
    case _ => []
  }

  lemma StepStarts(w: World, l: Label)
    requires WorldOk(w)
    ensures StartsOk(Next(w, l).starts, Next(w, l).db) && Next(w, l).starts == w.starts + Logged(w, l)
  {
    hide WorkersOk, EffectsOk, Inv, Evolves, StartsOk, BeginTx, Work.Apply, Classify;
    StepKeepsDb(w, l);
    TablesOf(w.db, Next(w, l).db);
    if Logged(w, l) == [] {
      assert w.starts + [] == w.starts;
      StartsStay(w.starts, w.db, Next(w, l).db);
    } else if l.Do? {
      StartAdded(w.starts, w.db, l.call.action);
    } else {
      StartAdded(w.starts, w.db, Begin(l.action, l.expected, l.plan, l.gate));
    }
  }

  lemma MoreStarts(starts: seq<Start>, more: seq<Start>)
    ensures forall a, r :: HasStart(starts, a, r) ==> HasStart(starts + more, a, r)
  {
    forall a, r | HasStart(starts, a, r) ensures HasStart(starts + more, a, r) {
      var i :| 0 <= i < |starts| && starts[i].action == a && starts[i].revision == r;
      assert (starts + more)[i] == starts[i];
    }
  }

  lemma StepEffects(w: World, l: Label)
    requires WorldOk(w)
    ensures EffectsOk(Next(w, l).starts, Next(w, l).effects) && WorkersOk(Next(w, l))
  {
    hide Inv, StartsOk, StartOf, BeginTx, Perform, Classify, HasStart;
    StepStarts(w, l);
    MoreStarts(w.starts, Logged(w, l));
    if l.ExecuteBegin? && l.worker !in w.workers && BeginTx(w.db, l.action, l.expected, l.plan, l.gate).res.Ok? {
      StartLogged(w.db, Begin(l.action, l.expected, l.plan, l.gate));
      StartAdded(w.starts, w.db, Begin(l.action, l.expected, l.plan, l.gate));
    }
  }

  lemma StartLogged(d: Db, a: ActionCall)
    requires a.Begin?
    ensures StartOf(d, a) != [] <==> BeginTx(d, a.action, a.expected, a.plan, a.gate).res.Ok?
  {
  }

  lemma StepKeepsWorld(w: World, l: Label)
    requires WorldOk(w)
    ensures WorldOk(Next(w, l)) && Evolves(w.db, Next(w, l).db)
  {
    hide Inv, Evolves, StartsOk, EffectsOk, WorkersOk, Next;
    StepKeepsDb(w, l);
    StepStarts(w, l);
    StepEffects(w, l);
  }

  /** In runs without repair an action starts at most once, and a started action is no longer PENDING. */
  predicate StartedOnce(starts: seq<Start>, actions: map<Id, Action>) {
    && (forall i :: 0 <= i < |starts| ==> starts[i].action in actions && actions[starts[i].action].status != APending)
    && (forall i, j :: 0 <= i < j < |starts| ==> starts[i].action != starts[j].action)
  }

  ghost predicate StrictWorld(w: World) { WorldOk(w) && Strict(w.db) && StartedOnce(w.starts, w.db.actions) }

  lemma StepStartsOnce(w: World, l: Label)
    requires StrictWorld(w) && !IsRepair(l)
    ensures StartedOnce(Next(w, l).starts, Next(w, l).db.actions)
  {
    hide Inv, Strict, WorkersOk, EffectsOk, StartsOk, StartOf, Next, Evolves, PointerForward, RetriesAccounted, Execution.Apply;
    StepKeepsDb(w, l);
    TablesOf(w.db, Next(w, l).db);
    StepStrictDb(w, l);
    StepStarts(w, l);
    OnceKept(w.starts, w.db.actions, Next(w, l).db.actions);
    StepCommits(w, l);
    if l.Do? && l.call.OfAction? { OnceMore(w, l.call.action, Next(w, l).db); }
    if l.ExecuteBegin? && l.worker !in w.workers { OnceMore(w, Begin(l.action, l.expected, l.plan, l.gate), Next(w, l).db); }
  }

  lemma OnceMore(w: World, a: ActionCall, d': Db)
    requires StartOf(w.db, a) != [] ==> d' == Execution.Apply(w.db, a).db
    requires StartedOnce(w.starts, d'.actions) && StartedOnce(w.starts, w.db.actions)
    ensures StartOf(w.db, a) != [] ==> StartedOnce(w.starts + StartOf(w.db, a), d'.actions)
  {
    hide PlanMismatchReason, GateOpens;
  }

  lemma OnceKept(starts: seq<Start>, a: map<Id, Action>, b: map<Id, Action>)
    requires StartedOnce(starts, a) && ActionsEvolve(a, b) && ActionsForward(a, b)
    ensures StartedOnce(starts, b)
  {
    forall i | 0 <= i < |starts| ensures starts[i].action in b && b[starts[i].action].status != APending {
      assert ActionForward(a[starts[i].action], b[starts[i].action]);
    }
  }

  lemma StepKeepsStrict(w: World, l: Label)
    requires StrictWorld(w) && !IsRepair(l)
    ensures StrictWorld(Next(w, l)) && Strictly(w.db, Next(w, l).db)
  {
    hide Inv, Strict, StrictEvolves, StartsOk, EffectsOk, WorkersOk, Next, StartedOnce;
    StepKeepsWorld(w, l);
    StepStrictDb(w, l);
    StepStartsOnce(w, l);
  }
}
