/** Resolution (v5/obligations.py:210-276): exactly when it commits, and that nothing is ever RESOLVED otherwise. */
module Resolving {
  import opened Types
  import opened Obligations
  import opened Execution
  import opened EvidencePipeline
  import opened Work
  import opened Invariants
  import opened Transfers
  import opened Frames
  import opened Kernel
  import opened RunProofs
  import opened RunTheorems

  /** k is the newest version of its claim. */
  predicate NewestVersion(d: Db, k: ClaimKey) {
    k in d.claims && forall j :: j in d.claims && j.id == k.id ==> j.version <= k.version
  }

  /** Evidence e is of an Observation of the action. */
  predicate StemsFrom(d: Db, e: Id, action: Id) {
    && e in d.evidence && d.evidence[e].origin.Some? && d.evidence[e].origin.value in d.observations
    && d.observations[d.evidence[e].origin.value].actionId == action
  }

  /** v is PASS, and the newest version of the claim it verifies cites evidence of the action. */
  ghost predicate Vouches(d: Db, v: Id, action: Id) {
    && v in d.verifications && d.verifications[v].result == VPass
    && exists k, e :: NewestVersion(d, k) && k.id == d.verifications[v].verifies && e in d.claims[k].basedOn && StemsFrom(d, e, action)
  }

  lemma ConcernsMeans(d: Db, claim: Id, action: Id)
    ensures Concerns(d, claim, action) <==>
              exists k, e :: NewestVersion(d, k) && k.id == claim && e in d.claims[k].basedOn && StemsFrom(d, e, action)
  {
    if Concerns(d, claim, action) {
      var v, e :| Newest(d.claims, claim, v) && e in d.claims[ClaimKey(claim, v)].basedOn
        && EvidenceOf(d.evidence, d.observations, e, action);
      assert NewestVersion(d, ClaimKey(claim, v)) && StemsFrom(d, e, action);
    }
    if k, e :| NewestVersion(d, k) && k.id == claim && e in d.claims[k].basedOn && StemsFrom(d, e, action) {
      assert k == ClaimKey(claim, k.version) && Newest(d.claims, claim, k.version);
      assert EvidenceOf(d.evidence, d.observations, e, action);
    }
  }

  /** resolve_obligation commits exactly for an OPEN obligation at the expected revision and a PASS that vouches for its
      origin action; it then closes it, with one event, and writes nothing else. */
  lemma ResolveCommitsIff(d: Db, o: Id, v: Id, expected: nat)
    ensures var r := Obligations.Apply(d, Resolve(o, v, expected));
            r.res.Ok? <==>
              && o in d.obligations && d.obligations[o].disposition == Open && d.obligations[o].revision == expected
              && Vouches(d, v, d.obligations[o].origin)
    ensures var r := Obligations.Apply(d, Resolve(o, v, expected));
            r.db == if r.res.Ok?
                    then var x := d.obligations[o];
                         d.(obligations := d.obligations[o := x.(disposition := Resolved, revision := expected + 1,
                              history := x.history + [Event(EvResolved, x.owner, None)])])
                    else d
  {
    hide Concerns, NewestVersion, StemsFrom;
    if o in d.obligations && v in d.verifications {
      ConcernsMeans(d, d.verifications[v].verifies, d.obligations[o].origin);
    }
  }

  // --------------------------------------------------------------- nothing else resolves

  /** Whatever is RESOLVED in b was so in a. */
  predicate NoneResolved(a: map<Id, Obligation>, b: map<Id, Obligation>) {
    forall o :: o in b && b[o].disposition == Resolved ==> o in a && a[o].disposition == Resolved
  }

  lemma HandOverResolvesNone(d: Db, d': Db, s: set<Id>)
    requires HandsOver(d, d', s)
    ensures NoneResolved(d.obligations, d'.obligations)
  {
    forall o | o in d'.obligations && d'.obligations[o].disposition == Resolved
      ensures o in d.obligations && d.obligations[o].disposition == Resolved
    {
      assert o in d'.obligations.Keys;
    }
  }

  lemma WorkResolvesNone(d: Db, c: WorkCall)
    requires Inv(d)
    ensures NoneResolved(d.obligations, Work.Apply(d, c).db.obligations)
  {
    hide Inv, HandsOver, OpenUnder, CreateGoalTx, CreateTaskTx, CreatePlanTx, CreateStepTx, AddDependencyTx,
         CreatePlanWithStepsTx, ActivatePlanTx, SupersedePlanTx, BindTx, CompleteTx, TerminateTx, ArchiveTx, TransitionTx,
         CompleteStepTx, FreezeObjectTx;
    if Ended(c).Some? && Work.Apply(d, c).res.Ok? {
      EndingHandsOver(d, c, Ended(c).value);
      HandOverResolvesNone(d, Work.Apply(d, c).db, OpenUnder(d, Ended(c).value));
    }
  }

  lemma UnknownResolvesNone(d: Db, a: Id, expected: nat)
    ensures NoneResolved(d.obligations, MarkUnknownTx(d, a, expected).db.obligations)
  {
    hide OwningTask;
  }

  lemma ActionResolvesNone(d: Db, c: ActionCall)
    ensures NoneResolved(d.obligations, Execution.Apply(d, c).db.obligations)
  {
    hide CreateActionTx, BeginTx, MarkObservedTx, MarkUnknownTx, MarkFailedTx, CancelActionTx, RetryTx, FreezeActionTx,
         NoneResolved;
    Same(d.obligations);
    if c.MarkUnknown? { UnknownResolvesNone(d, c.action, c.expected); }
  }

  lemma Same(a: map<Id, Obligation>)
    ensures NoneResolved(a, a)
  {
  }

  /** This call resolves o, on the strength of a PASS that vouches for its origin. */
  ghost predicate ResolvedBy(d: Db, c: Call, o: Id) {
    && c.OfObligation? && c.obligation.Resolve? && c.obligation.obligation == o
    && o in d.obligations && d.obligations[o].disposition == Open
    && Vouches(d, c.obligation.verification, d.obligations[o].origin)
  }

  lemma ObligationResolves(d: Db, c: ObligationCall, o: Id)
    requires o in Obligations.Apply(d, c).db.obligations && Obligations.Apply(d, c).db.obligations[o].disposition == Resolved
    ensures (o in d.obligations && d.obligations[o].disposition == Resolved) || ResolvedBy(d, OfObligation(c), o)
  {
    hide Obligations.Apply, Vouches;
    if c.Resolve? {
      ResolveCommitsIff(d, c.obligation, c.verification, c.expected);
    } else {
      OthersResolveNone(d, c);
    }
  }

  lemma OthersResolveNone(d: Db, c: ObligationCall)
    requires !c.Resolve?
    ensures NoneResolved(d.obligations, Obligations.Apply(d, c).db.obligations)
  {
    hide ValidOwner, NoneResolved, AfterEvent;
    Same(d.obligations);
    match c
    case CreateObligation(origin, owner) =>
      RowResolvesNone(d.obligations, Id(ObligationK, d.next), NewObligation(origin, owner));
    case Transfer(o, n, e) =>
      if o in d.obligations { EventResolvesNone(d.obligations, o, Event(EvTransferred, e, Some(n))); }
    case Abandon(o, _, _) =>
      if o in d.obligations { EventResolvesNone(d.obligations, o, Event(EvAbandoned, d.obligations[o].owner, None)); }
    case _ =>
  }

  lemma RowResolvesNone(a: map<Id, Obligation>, o: Id, row: Obligation)
    requires row.disposition == Resolved ==> o in a && a[o].disposition == Resolved
    ensures NoneResolved(a, a[o := row])
  {
  }

  lemma EventResolvesNone(a: map<Id, Obligation>, o: Id, e: Event)
    requires o in a && e.kind != EvResolved
    ensures NoneResolved(a, a[o := AfterEvent(a[o], e)])
  {
    hide NoneResolved;
    RowResolvesNone(a, o, AfterEvent(a[o], e));
  }

  lemma CallResolves(d: Db, c: Call, o: Id)
    requires Inv(d) && !c.OfRepair?
    requires o in Perform(d, c).db.obligations && Perform(d, c).db.obligations[o].disposition == Resolved
    ensures (o in d.obligations && d.obligations[o].disposition == Resolved) || ResolvedBy(d, c, o)
  {
    hide Inv, Work.Apply, Execution.Apply, EvidencePipeline.Apply, Obligations.Apply, Safety.Apply, Vouches;
    match c
    case OfWork(x) => WorkResolvesNone(d, x);
    case OfAction(x) => ActionResolvesNone(d, x);
    case OfEvidence(x) => EvidenceFrame(d, x);
    case OfObligation(x) => ObligationResolves(d, x, o);
    case _ =>
  }

  lemma InnerResolvesNone(d: Db, c: Option<ActionCall>)
    ensures NoneResolved(d.obligations, Committed(d, c).obligations)
  {
    hide Execution.Apply;
    if c.Some? { ActionResolvesNone(d, c.value); }
  }

  lemma StepResolves(w: World, l: Label, o: Id)
    requires Inv(w.db) && !IsRepair(l)
    requires o in Next(w, l).db.obligations && Next(w, l).db.obligations[o].disposition == Resolved
    ensures (o in w.db.obligations && w.db.obligations[o].disposition == Resolved)
         || (l.Do? && ResolvedBy(w.db, l.call, o))
  {
    hide Inv, Next, Perform, Committed, GateFault, ClaimExists, StartVerificationTx, FinishVerificationTx, ResolvedBy;
    StepCommits(w, l);
    match l
    case Do(c) => CallResolves(w.db, c, o);
    case VerifyStart(_, _, _) =>
    case VerifyEnd(_, _) =>
    case _ => InnerResolvesNone(w.db, Inner(w, l));
  }

  /** Step i of the run takes o out of OPEN, by resolve_obligation with a PASS that vouches for its origin at that moment. */
  ghost predicate ResolvedAt(labels: seq<Label>, i: nat, o: Id)
    requires i < |labels|
  {
    labels[i].Do? && ResolvedBy(Run(BOOT, labels[..i]).db, labels[i].call, o)
  }

  /** Over every run without repair: what is RESOLVED was taken out of OPEN by a resolve_obligation at a store in which the
      verification it named was PASS and vouched for the origin action. */
  lemma {:induction false} ResolvedByPass(labels: seq<Label>, o: Id)
    requires RepairFree(labels)
    requires o in Run(BOOT, labels).db.obligations && Run(BOOT, labels).db.obligations[o].disposition == Resolved
    ensures exists i :: 0 <= i < |labels| && ResolvedAt(labels, i, o)
    decreases |labels|
  {
    hide Inv, StartsOk, EffectsOk, WorkersOk, Next, ResolvedBy;
    var before := labels[..|labels| - 1];
    var w := Run(BOOT, before);
    assert Reachable(w);
    ReachableOk(w);
    StepResolves(w, labels[|labels| - 1], o);
    if o in w.db.obligations && w.db.obligations[o].disposition == Resolved {
      ResolvedByPass(before, o);
      var i :| 0 <= i < |before| && ResolvedAt(before, i, o);
      assert before[..i] == labels[..i];
      assert ResolvedAt(labels, i, o);
    } else {
      assert ResolvedAt(labels, |labels| - 1, o);
    }
  }
}
