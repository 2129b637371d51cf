/** The running kernel: callers' transactions, interleaved with the workers of execute_action
    (v5/capabilities/__init__.py:457-515), run_verification (v5/evidence.py:305-398) and recover
    (v5/recovery.py:33-65), each cut into its transactions, reads and external effect. A crash ends
    every worker; a crash inside a transaction commits nothing, so between steps is enough. */
module Kernel {
  import opened Types
  import opened Obligations
  import opened Safety
  import opened Execution
  import opened EvidencePipeline
  import opened Work
  import opened Repair

  datatype Call =
    | OfWork(work: WorkCall) | OfAction(action: ActionCall) | OfEvidence(evidence: EvidenceCall)
    | OfObligation(obligation: ObligationCall) | OfSafety(safety: SafetyCall) | OfRepair(repair: RepairCall)

  ghost function Perform(d: Db, c: Call): Tx {
    match c
    case OfWork(w) => Work.Apply(d, w)
    case OfAction(a) => Execution.Apply(d, a)
    case OfEvidence(e) => EvidencePipeline.Apply(d, e)
    case OfObligation(o) => Obligations.Apply(d, o)
    case OfSafety(s) => Safety.Apply(d, s)
    case OfRepair(r) => Repair.Apply(d, r)
  }

  /** What the external call came back with. */
  datatype Reply = Value(raw: string) | DefiniteNoEffect | OtherFailure

  datatype Worker =
    | Started(action: Id, start: nat, plan: Option<Id>)
    | Returned(action: Id, start: nat, plan: Option<Id>, reply: Reply)
    | Evaluating(verification: Id, forAction: Option<Id>)
    | Sweeping(todo: set<Id>)
    | Loading(stuck: Id, todo: set<Id>)
    | Marking(stuck: Id, revision: nat, todo: set<Id>)
    | Freezing(stuck: Id, todo: set<Id>)

  /** A committed begin_executing: the action, the revision it started from, and the gate's row when gated. */
  datatype Start = Start(action: Id, revision: nat, gated: bool, row: Option<Id>)

  /** A call of the capability: the action and the revision its start was committed from. */
  datatype Invocation = Invocation(action: Id, start: nat)

  /** The store, the live workers, and two logs: starts committed and capabilities invoked. */
  datatype World = World(db: Db, workers: map<nat, Worker>, starts: seq<Start>, effects: seq<Invocation>)

  const BOOT := World(EMPTY_DB, map[], [], [])

  datatype Label =
    | Do(call: Call)
    | ExecuteBegin(worker: nat, action: Id, expected: nat, plan: Option<Id>, gate: Gate)
    | ExecuteEffect(worker: nat, reply: Reply)
    | ExecuteEnd(worker: nat)
    | VerifyStart(worker: nat, verification: Id, forAction: Option<Id>)
    | VerifyEnd(worker: nat, verdict: Verdict)
    | RecoverScan(worker: nat)
    | RecoverClassify(worker: nat, stuck: Id)
    | RecoverLoad(worker: nat)
    | RecoverCommit(worker: nat)
    | Crash

  predicate Gated(g: Gate) { g.ConfirmationGate? && g.required }

  /** The start a call logs, if it is a begin_executing that commits. */
  function StartOf(d: Db, a: ActionCall): seq<Start> {
    if a.Begin? && BeginTx(d, a.action, a.expected, a.plan, a.gate).res.Ok?
    then [Start(a.action, a.expected, Gated(a.gate), if Gated(a.gate) then a.gate.row else None)]
    else []
  }

  /** The last transaction of execute_action. */
  function EndTx(d: Db, w: Worker): Tx
    requires w.Returned?
  {
    match w.reply
    case Value(raw) => MarkObservedTx(d, w.action, w.start + 1, raw, w.plan)
    case DefiniteNoEffect => MarkFailedTx(d, w.action, w.start + 1, true)
    case OtherFailure => MarkUnknownTx(d, w.action, w.start + 1)
  }

  /** SELECT id FROM actions WHERE status = 'EXECUTING'. */
  function Stuck(d: Db): set<Id> { set a | a in d.actions && d.actions[a].status == AExecuting }

  /** One step; a label that does not apply changes nothing. */
  ghost function Next(w: World, l: Label): World {
    match l
    case Do(c) =>
      w.(db := Perform(w.db, c).db, starts := w.starts + if c.OfAction? then StartOf(w.db, c.action) else [])
    case ExecuteBegin(p, a, e, plan, gate) =>
      if p in w.workers || !BeginTx(w.db, a, e, plan, gate).res.Ok? then w
      else World(BeginTx(w.db, a, e, plan, gate).db, w.workers[p := Started(a, e, plan)],
                 w.starts + StartOf(w.db, Begin(a, e, plan, gate)), w.effects)
    case ExecuteEffect(p, reply) =>
      if p !in w.workers || !w.workers[p].Started? then w
      else
        var s := w.workers[p];
        w.(workers := w.workers[p := Returned(s.action, s.start, s.plan, reply)],
           effects := w.effects + [Invocation(s.action, s.start)])
    case ExecuteEnd(p) =>
      if p !in w.workers || !w.workers[p].Returned? then w
      else w.(db := EndTx(w.db, w.workers[p]).db, workers := w.workers - {p})
    case VerifyStart(p, v, a) =>
      if p in w.workers || !StartVerificationTx(w.db, v, a).res.Ok? then w
      else w.(db := StartVerificationTx(w.db, v, a).db, workers := w.workers[p := Evaluating(v, a)])
    case VerifyEnd(p, verdict) =>
      if p !in w.workers || !w.workers[p].Evaluating? then w
      else w.(db := FinishVerificationTx(w.db, w.workers[p].verification, w.workers[p].forAction, verdict).db,
              workers := w.workers - {p})
    case RecoverScan(p) =>
      if p in w.workers then w else w.(workers := w.workers[p := Sweeping(Stuck(w.db))])
    case RecoverClassify(p, a) =>
      if p !in w.workers || !w.workers[p].Sweeping? || a !in w.workers[p].todo || a !in w.db.actions then w
      else
        var rest := w.workers[p].todo - {a};
        w.(workers := w.workers[p := if Classify(w.db, a) == IntegrityViolation then Freezing(a, rest) else Loading(a, rest)])
    case RecoverLoad(p) =>
      if p !in w.workers || !w.workers[p].Loading? || w.workers[p].stuck !in w.db.actions then w
      else
        var l := w.workers[p];
        w.(workers := w.workers[p := Marking(l.stuck, w.db.actions[l.stuck].revision, l.todo)])
    case RecoverCommit(p) =>
      if p !in w.workers then w
      else (match w.workers[p]
            case Freezing(a, todo) =>
              w.(db := FreezeActionTx(w.db, a).db, workers := w.workers[p := Sweeping(todo)])
            case Marking(a, r, todo) =>
              w.(db := MarkUnknownTx(w.db, a, r).db, workers := w.workers[p := Sweeping(todo)])
            case _ => w)
    case Crash => w.(workers := map[])
  }

  /** A whole run: any finite sequence of labels. */
  ghost function Run(w: World, labels: seq<Label>): World
    decreases |labels|
  {
    if labels == [] then w else Next(Run(w, labels[..|labels| - 1]), labels[|labels| - 1])
  }

  predicate IsRepair(l: Label) { l.Do? && l.call.OfRepair? }

  predicate RepairFree(labels: seq<Label>) { forall i :: 0 <= i < |labels| ==> !IsRepair(labels[i]) }

  /** Running on from the end of a run is running the longer sequence. */
  lemma {:induction false} RunOn(w: World, a: seq<Label>, b: seq<Label>)
    ensures Run(Run(w, a), b) == Run(w, a + b)
    decreases |b|
  {
    hide Next;
    if b == [] {
      assert a + b == a;
    } else {
      RunOn(w, a, b[..|b| - 1]);
      assert (a + b)[..|a + b| - 1] == a + b[..|b| - 1];
    }
  }

  lemma {:induction false} RunOne(w: World, a: Label)
    ensures Run(w, [a]) == Next(w, a)
  {
    hide Next;
    assert [a][..0] == [];
    assert Run(w, []) == w;
  }

  lemma {:induction false} RunTwo(w: World, a: Label, b: Label)
    ensures Run(w, [a, b]) == Next(Next(w, a), b)
  {
    hide Next;
    RunOne(w, a);
    assert [a, b][..1] == [a];
  }

  lemma {:induction false} RunThree(w: World, a: Label, b: Label, c: Label)
    ensures Run(w, [a, b, c]) == Next(Next(Next(w, a), b), c)
  {
    hide Next;
    RunTwo(w, a, b);
    assert [a, b, c][..2] == [a, b];
  }
}
