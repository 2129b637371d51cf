/** The obligation ledger: a row is what its events make of the row as it was created (v5/obligations.py). */
module Ledgers {
  import opened Types
  import opened Obligations
  import opened Execution
  import opened EvidencePipeline
  import opened Work
  import opened Invariants
  import opened RowWrites
  import opened Transfers
  import opened Frames
  import opened Kernel
  import opened RunProofs
  import opened RunTheorems
  import opened Theorems

  type Standing = (Owner, Disposition)

  function StandingOf(o: Obligation): Standing { (o.owner, o.disposition) }

  /** Replaying events from a standing; None when an event does not fit the standing before it. */
  function Replay(start: Standing, h: seq<Event>): Option<Standing> {
    if h == [] then Some(start)
    else
      var before := Replay(start, h[..|h| - 1]);
      var e := h[|h| - 1];
      if before.None? || before.value.1 != Open || before.value.0 != e.from then None
      else match e.kind
           case EvTransferred => if e.to.Some? && e.to.value != e.from then Some((e.to.value, Open)) else None
           case EvResolved => Some((e.from, Resolved))
           case EvAbandoned => Some((e.from, Abandoned))
  }

  lemma {:induction false} ReplayOn(start: Standing, h: seq<Event>, k: seq<Event>)
    requires Replay(start, h).Some?
    ensures Replay(start, h + k) == Replay(Replay(start, h).value, k)
    decreases |k|
  {
    if k == [] {
      assert h + k == h;
    } else {
      assert (h + k)[..|h + k| - 1] == h + k[..|k| - 1];
      ReplayOn(start, h, k[..|k| - 1]);
    }
  }

  /** y is x after the events y has in addition, one revision each. */
  predicate Replays(x: Obligation, y: Obligation) {
    && x.origin == y.origin && x.history <= y.history
    && Replay(StandingOf(x), y.history[|x.history|..]) == Some(StandingOf(y))
    && y.revision == x.revision + (|y.history| - |x.history|)
  }

  lemma ReplaysItself(x: Obligation)
    ensures Replays(x, x)
  {
    assert x.history[|x.history|..] == [];
  }

  lemma ReplaysTransitive(x: Obligation, y: Obligation, z: Obligation)
    requires Replays(x, y) && Replays(y, z)
    ensures Replays(x, z)
  {
    var h, k := y.history[|x.history|..], z.history[|y.history|..];
    ReplayOn(StandingOf(x), h, k);
    assert z.history[|x.history|..] == h + k;
  }

  /** One event of an open obligation, from its owner, and for a transfer to another owner. */
  lemma EventReplays(o: Obligation, e: Event)
    requires o.disposition == Open && e.from == o.owner
    requires e.kind == EvTransferred ==> e.to.Some? && e.to.value != o.owner
    ensures Replays(o, AfterEvent(o, e))
  {
    assert (o.history + [e])[|o.history|..] == [e];
    assert [e][..0] == [];
    assert Replay(StandingOf(o), [e][..0]) == Some(StandingOf(o));
  }

  /** What one commit may do to the ledger: replayable events on rows it had, new rows OPEN without events. */
  predicate LedgerStep(a: map<Id, Obligation>, b: map<Id, Obligation>) {
    && (forall o :: o in a ==> o in b && Replays(a[o], b[o]))
    && (forall o :: o in b && o !in a ==> b[o] == NewObligation(b[o].origin, b[o].owner))
  }

  lemma NoStep(a: map<Id, Obligation>)
    ensures LedgerStep(a, a)
  {
    hide Replays;
    forall o | o in a ensures Replays(a[o], a[o]) { ReplaysItself(a[o]); }
  }

  lemma EventStep(a: map<Id, Obligation>, o: Id, e: Event)
    requires o in a && a[o].disposition == Open && e.from == a[o].owner
    requires e.kind == EvTransferred ==> e.to.Some? && e.to.value != a[o].owner
    ensures LedgerStep(a, a[o := AfterEvent(a[o], e)])
  {
    hide Replays, AfterEvent;
    NoStep(a);
    EventReplays(a[o], e);
  }

  lemma NewStep(a: map<Id, Obligation>, id: Id, origin: Id, owner: Owner)
    requires id !in a
    ensures LedgerStep(a, a[id := NewObligation(origin, owner)])
  {
    hide Replays;
    NoStep(a);
  }

  lemma HandOverStep(d: Db, d': Db, s: set<Id>)
    requires HandsOver(d, d', s)
    ensures LedgerStep(d.obligations, d'.obligations)
  {
    hide Replays;
    NoStep(d.obligations);
    forall o | o in d.obligations ensures o in d'.obligations && Replays(d.obligations[o], d'.obligations[o]) {
      assert o in d.obligations.Keys && o in d'.obligations.Keys;
      if o in s {
        EventReplays(d.obligations[o], Event(EvTransferred, d.obligations[o].owner, Some(Uor)));
      }
    }
    forall o | o in d'.obligations ensures o in d.obligations {
      assert o in d'.obligations.Keys;
    }
  }

  lemma ObligationLedger(d: Db, c: ObligationCall)
    requires Inv(d)
    ensures LedgerStep(d.obligations, Obligations.Apply(d, c).db.obligations)
  {
    hide Inv, LedgerStep, AfterEvent, Concerns;
    NoStep(d.obligations);
    if Obligations.Apply(d, c).res.Ok? {
      match c
      case CreateObligation(origin, owner) =>
        assert Id(ObligationK, d.next) !in d.obligations by { MintedKeys(d); }
        NewStep(d.obligations, Id(ObligationK, d.next), origin, owner);
      case Transfer(o, n, e) => EventStep(d.obligations, o, Event(EvTransferred, e, Some(n)));
      case Abandon(o, _, _) => EventStep(d.obligations, o, Event(EvAbandoned, d.obligations[o].owner, None));
      case Resolve(o, _, _) => EventStep(d.obligations, o, Event(EvResolved, d.obligations[o].owner, None));
    }
  }

  lemma UnknownLedger(d: Db, a: Id, expected: nat)
    requires Inv(d)
    ensures LedgerStep(d.obligations, MarkUnknownTx(d, a, expected).db.obligations)
  {
    hide Inv, LedgerStep, OwningTask;
    NoStep(d.obligations);
    if MarkUnknownTx(d, a, expected).res.Ok? {
      assert Id(ObligationK, d.next) !in d.obligations by { MintedKeys(d); }
      NewStep(d.obligations, Id(ObligationK, d.next), a, Owned(OwningTask(d, d.actions[a]).value));
    }
  }

  lemma ActionLedger(d: Db, c: ActionCall)
    requires Inv(d)
    ensures LedgerStep(d.obligations, Execution.Apply(d, c).db.obligations)
  {
    hide Inv, LedgerStep, CreateActionTx, BeginTx, MarkObservedTx, MarkUnknownTx, MarkFailedTx, CancelActionTx, RetryTx,
         FreezeActionTx;
    NoStep(d.obligations);
    match c
    case MarkUnknown(a, e) => UnknownLedger(d, a, e);
    case _ =>
  }

  lemma WorkLedger(d: Db, c: WorkCall)
    requires Inv(d)
    ensures LedgerStep(d.obligations, Work.Apply(d, c).db.obligations)
  {
    hide Inv, LedgerStep, HandsOver, OpenUnder, CreateGoalTx, CreateTaskTx, CreatePlanTx, CreateStepTx, AddDependencyTx,
         CreatePlanWithStepsTx, ActivatePlanTx, SupersedePlanTx, BindTx, CompleteTx, TerminateTx, ArchiveTx, TransitionTx,
         CompleteStepTx, FreezeObjectTx;
    NoStep(d.obligations);
    if Ended(c).Some? && Work.Apply(d, c).res.Ok? {
      EndingHandsOver(d, c, Ended(c).value);
      HandOverStep(d, Work.Apply(d, c).db, OpenUnder(d, Ended(c).value));
    }
  }

  lemma CallLedger(d: Db, c: Call)
    requires Inv(d) && !c.OfRepair?
    ensures LedgerStep(d.obligations, Perform(d, c).db.obligations)
  {
    hide Inv, LedgerStep, Work.Apply, Execution.Apply, EvidencePipeline.Apply, Obligations.Apply, Safety.Apply;
    NoStep(d.obligations);
    match c
    case OfWork(x) => WorkLedger(d, x);
    case OfAction(x) => ActionLedger(d, x);
    case OfEvidence(x) => EvidenceFrame(d, x);
    case OfObligation(x) => ObligationLedger(d, x);
    case _ =>
  }

  lemma InnerLedger(d: Db, c: Option<ActionCall>)
    requires Inv(d)
    ensures LedgerStep(d.obligations, Committed(d, c).obligations)
  {
    hide Inv, LedgerStep, Execution.Apply;
    NoStep(d.obligations);
    if c.Some? { ActionLedger(d, c.value); }
  }

  lemma StepLedger(w: World, l: Label)
    requires Inv(w.db) && !IsRepair(l)
    ensures LedgerStep(w.db.obligations, Next(w, l).db.obligations)
  {
    hide Inv, LedgerStep, Next, Perform, Committed, GateFault, ClaimExists, StartVerificationTx, FinishVerificationTx;
    NoStep(w.db.obligations);
    StepCommits(w, l);
    match l
    case Do(c) => CallLedger(w.db, c);
    case VerifyStart(_, _, _) =>
    case VerifyEnd(_, _) =>
    case _ => InnerLedger(w.db, Inner(w, l));
  }

  // ------------------------------------------------------------------------- theorems

  /** From any point of any run on, as long as nobody repairs: the later row is what its further events make of the
      earlier one, and the revision counts them. */
  lemma {:induction false} LedgerReplays(w: World, labels: seq<Label>, o: Id)
    requires Reachable(w) && RepairFree(labels) && o in w.db.obligations
    ensures o in Run(w, labels).db.obligations && Replays(w.db.obligations[o], Run(w, labels).db.obligations[o])
    decreases |labels|
  {
    hide Inv, StartsOk, EffectsOk, WorkersOk, Reachable, Next, Replays;
    if labels == [] {
      ReplaysItself(w.db.obligations[o]);
    } else {
      var before := labels[..|labels| - 1];
      LedgerReplays(w, before, o);
      Onward(w, before);
      ReachableOk(Run(w, before));
      StepLedger(Run(w, before), labels[|labels| - 1]);
      ReplaysTransitive(w.db.obligations[o], Run(w, before).db.obligations[o], Run(w, labels).db.obligations[o]);
    }
  }

  /** The k-th step of the run creates o. */
  ghost predicate CreatedAt(labels: seq<Label>, k: nat, o: Id)
    requires k < |labels|
  {
    o !in Run(BOOT, labels[..k]).db.obligations && o in Run(BOOT, labels[..k + 1]).db.obligations
  }

  lemma {:induction false} CreationStep(labels: seq<Label>, o: Id) returns (k: nat)
    requires o in Run(BOOT, labels).db.obligations
    ensures k < |labels| && CreatedAt(labels, k, o)
    decreases |labels|
  {
    hide Next;
    var before := labels[..|labels| - 1];
    if o in Run(BOOT, before).db.obligations {
      k := CreationStep(before, o);
      assert labels[..k] == before[..k] && labels[..k + 1] == before[..k + 1];
    } else {
      k := |labels| - 1;
      assert labels[..k + 1] == labels;
    }
  }

  /** What a replayable history looks like: every event but the last is a transfer, each from the owner the one before
      left, and the last one decides the disposition. */
  predicate HistoryCloses(o: Obligation) {
    && (forall i :: 0 <= i < |o.history| - 1 ==> o.history[i].kind == EvTransferred)
    && (o.disposition == Open <==> o.history == [] || o.history[|o.history| - 1].kind == EvTransferred)
    && (o.disposition == Resolved <==> o.history != [] && o.history[|o.history| - 1].kind == EvResolved)
    && (forall i :: 0 < i < |o.history| ==> o.history[i - 1].to == Some(o.history[i].from))
  }

  lemma {:induction false} ReplayCloses(owner: Owner, h: seq<Event>)
    requires Replay((owner, Open), h).Some?
    ensures forall i :: 0 <= i < |h| - 1 ==> h[i].kind == EvTransferred
    ensures forall i :: 0 < i < |h| ==> h[i - 1].to == Some(h[i].from)
    ensures h != [] ==> h[|h| - 1].kind == match Replay((owner, Open), h).value.1
                                          case Open => EvTransferred
                                          case Resolved => EvResolved
                                          case Abandoned => EvAbandoned
    ensures h == [] ==> Replay((owner, Open), h).value == (owner, Open)
    ensures h != [] && h[|h| - 1].kind == EvTransferred ==> h[|h| - 1].to == Some(Replay((owner, Open), h).value.0)
  {
    if h != [] {
      var before := h[..|h| - 1];
      ReplayCloses(owner, before);
      forall i | 0 < i < |h| ensures h[i - 1].to == Some(h[i].from) {
        if i < |h| - 1 { assert before[i - 1].to == Some(before[i].from); }
      }
      forall i | 0 <= i < |h| - 1 ensures h[i].kind == EvTransferred {
        assert h[i] == before[i];
      }
    }
  }

  /** The row as its creation left it and the row now: the whole history replays from the first owner. */
  predicate LedgerOf(born: Obligation, now: Obligation) {
    && born == NewObligation(now.origin, born.owner)
    && Replay((born.owner, Open), now.history) == Some(StandingOf(now))
    && now.revision == |now.history|
    && HistoryCloses(now)
  }

  lemma BornLedger(born: Obligation, now: Obligation)
    requires born == NewObligation(born.origin, born.owner) && Replays(born, now)
    ensures LedgerOf(born, now)
  {
    assert now.history[0..] == now.history;
    ReplayCloses(born.owner, now.history);
  }

  /** The step that creates an obligation leaves it OPEN and without events. */
  lemma BornNew(labels: seq<Label>, k: nat, o: Id)
    requires RepairFree(labels) && k < |labels| && CreatedAt(labels, k, o)
    ensures Reachable(Run(BOOT, labels[..k + 1])) && o in Run(BOOT, labels[..k + 1]).db.obligations
    ensures var born := Run(BOOT, labels[..k + 1]).db.obligations[o]; born == NewObligation(born.origin, born.owner)
  {
    hide Inv, StartsOk, EffectsOk, WorkersOk, Run, Next, Replays;
    var w := Run(BOOT, labels[..k]);
    assert Reachable(w) && Reachable(Run(BOOT, labels[..k + 1]));
    ReachableOk(w);
    RunOne(w, labels[k]);
    RunOn(BOOT, labels[..k], [labels[k]]);
    assert labels[..k] + [labels[k]] == labels[..k + 1];
    StepLedger(w, labels[k]);
  }

  /** Its ledger since. */
  ghost predicate AgreesSince(labels: seq<Label>, k: nat, o: Id) {
    && k < |labels| && CreatedAt(labels, k, o) && o in Run(BOOT, labels).db.obligations
    && LedgerOf(Run(BOOT, labels[..k + 1]).db.obligations[o], Run(BOOT, labels).db.obligations[o])
  }

  /** Without repair every obligation was created OPEN by some step of the run, and replaying all its events from the
      owner it was created with yields its owner and disposition; the revision counts them, a closing event is unique
      and last; the owner is the registry or an existing task. */
  lemma {:induction false} LedgerAgrees(labels: seq<Label>, o: Id)
    requires RepairFree(labels) && o in Run(BOOT, labels).db.obligations
    ensures ValidOwner(Run(BOOT, labels).db, Run(BOOT, labels).db.obligations[o].owner)
    ensures exists k :: AgreesSince(labels, k, o)
  {
    hide Inv, StartsOk, EffectsOk, WorkersOk, Run, Next, Replays, LedgerOf;
    var k := CreationStep(labels, o);
    BornNew(labels, k, o);
    var born, rest := Run(BOOT, labels[..k + 1]), labels[k + 1..];
    RunOn(BOOT, labels[..k + 1], rest);
    assert labels[..k + 1] + rest == labels;
    LedgerReplays(born, rest, o);
    BornLedger(born.db.obligations[o], Run(BOOT, labels).db.obligations[o]);
    assert AgreesSince(labels, k, o);
    OwnersValid(labels, o);
  }

  lemma {:induction false} OwnersValid(labels: seq<Label>, o: Id)
    requires o in Run(BOOT, labels).db.obligations
    ensures ValidOwner(Run(BOOT, labels).db, Run(BOOT, labels).db.obligations[o].owner)
  {
    hide Inv, StartsOk, EffectsOk, WorkersOk, Run;
    assert Reachable(Run(BOOT, labels));
    ReachableOk(Run(BOOT, labels));
    InvHas(Run(BOOT, labels).db, ObligationsSound);
  }
}
