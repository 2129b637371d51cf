/** Every operation of execution, evidence, obligations, confirmations and repair keeps the invariant. */
module ExecutionProofs {
  import opened Types
  import opened Graphs
  import opened Obligations
  import opened Safety
  import opened Execution
  import opened EvidencePipeline
  import opened Repair
  import opened Invariants
  import opened RowWrites
  import opened WorkProofs

  lemma ActionFacts(d: Db)
    requires Inv(d)
    ensures AllMinted(d) && Keeps(d, d)
    ensures TasksOk(d.tasks, d.goals, d.plans) && StepsOk(d.steps, d.plans) && ActionsOk(d.actions, d.steps)
    ensures PlansOk(d.plans, d.tasks) && ObservedBacked(d.actions, d.observations)
  {
    WorkFacts(d);
    assert Holds(ActionsSound, d) && Holds(ObservedIsBacked, d);
  }

  /** Rewriting an action in place, never to OBSERVED without an Observation. */
  lemma ActionMoves(d: Db, id: Id, a: Action)
    requires Inv(d) && id in d.actions && ActionStep(d.actions[id], a)
    requires a.status == AObserved ==> d.actions[id].status == AObserved || HasObservation(d.observations, id)
    ensures Keeps(d, d.(actions := d.actions[id := a]))
  {
    hide Inv, Keeps, AllMinted, HasObservation;
    MintedKeys(d);
    KeyUsable(d, id);
    StepOfAction(d, id);
    SameLink(d, id, a);
    if d.actions[id].status == AObserved { ObservedSeen(d, id); }
    PutAction(d, d, id, a);
  }

  lemma SameLink(d: Db, id: Id, a: Action)
    requires Inv(d) && id in d.actions && ActionStep(d.actions[id], a)
    ensures RetryLink(d.actions[id := a], id)
  {
    hide Inv;
    InvHas(d, ActionsSound);
    assert RetryLink(d.actions, id);
  }

  lemma ObservedSeen(d: Db, id: Id)
    requires Inv(d) && id in d.actions && d.actions[id].status == AObserved
    ensures HasObservation(d.observations, id)
  {
    hide Inv, HasObservation;
    InvHas(d, ObservedIsBacked);
  }

  lemma NewObservationKeeps(d: Db, id: Id, raw: string)
    requires Inv(d) && id in d.actions
    ensures Keeps(d, d.(next := d.next + 1, observations := d.observations[Id(ObservationK, d.next) := Observation(id, raw)]))
  {
    hide Inv, Keeps;
    MintedKeys(d);
    MintIds(d, d, d.next + 1);
    assert Holds(ObservationsSound, d) by { InvHas(d, ObservationsSound); }
    PutObservation(d, d.(next := d.next + 1), Id(ObservationK, d.next), Observation(id, raw));
  }

  lemma MarkObservedKeeps(d: Db, id: Id, expected: nat, raw: string, plan: Option<Id>)
    requires Inv(d)
    ensures Keeps(d, MarkObservedTx(d, id, expected, raw, plan).db)
  {
    hide Inv, Evolves, AllMinted, PlanMismatchReason;
    MintedKeys(d);
    if MarkObservedTx(d, id, expected, raw, plan).res.Ok? {
      var obs := Id(ObservationK, d.next);
      NewObservationKeeps(d, id, raw);
      var d2 := d.(next := d.next + 1, observations := d.observations[obs := Observation(id, raw)]);
      assert d2.observations[obs].actionId == id;
      ActionMoves(d2, id, Advanced(d.actions[id], AObserved));
      KeepsTransitive(d, d2, d2.(actions := d2.actions[id := Advanced(d.actions[id], AObserved)]));
    }
  }

  lemma KeyUsable(d: Db, id: Id)
    requires Inv(d) && id in d.actions
    ensures Usable(d, id, ActionK)
  {
    MintedKeys(d);
  }

  lemma NewObligationKeeps(d: Db, o: Obligation)
    requires Inv(d) && ValidOwner(d, o.owner)
    ensures Keeps(d, d.(next := d.next + 1, obligations := d.obligations[Id(ObligationK, d.next) := o]))
  {
    hide Inv, Keeps;
    MintedKeys(d);
    MintIds(d, d, d.next + 1);
    PutObligation(d, d.(next := d.next + 1), Id(ObligationK, d.next), o);
  }

  lemma OwnerKnown(d: Db, a: Action)
    requires Inv(d) && a.stepId in d.steps
    ensures OwningTask(d, a).Some? && OwningTask(d, a).value in d.tasks
  {
    WorkFacts(d);
  }

  lemma BecomesUnknown(d: Db, id: Id, owner: Id)
    requires Inv(d) && id in d.actions && owner in d.tasks
    ensures Keeps(d, Advance(d, id, AUnknown).(next := d.next + 1,
                       obligations := d.obligations[Id(ObligationK, d.next) := NewObligation(id, Owned(owner))]))
  {
    hide Inv, Keeps, AllMinted, Acyclic, TasksOk, PlansOk, StepsOk, ObservedBacked;
    ActionFacts(d);
    NewObligationKeeps(d, NewObligation(id, Owned(owner)));
    assert RetryLink(d.actions, id);
    KeyUsable(d, id);
    PutAction(d, d.(next := d.next + 1, obligations := d.obligations[Id(ObligationK, d.next) := NewObligation(id, Owned(owner))]),
              id, Advanced(d.actions[id], AUnknown));
  }

  lemma MarkUnknownKeeps(d: Db, id: Id, expected: nat)
    requires Inv(d)
    ensures Keeps(d, MarkUnknownTx(d, id, expected).db)
  {
    hide Inv, Keeps, AllMinted, Acyclic, TasksOk, PlansOk, StepsOk, ObservedBacked, OwningTask;
    ActionFacts(d);
    if MarkUnknownTx(d, id, expected).res.Ok? {
      OwnerKnown(d, d.actions[id]);
      BecomesUnknown(d, id, OwningTask(d, d.actions[id]).value);
    }
  }

  lemma NewActionKeeps(d: Db, a: Action)
    requires Inv(d) && a.stepId in d.steps && a.status != AObserved && CapabilityFits(a, d.steps[a.stepId])
    requires RetryLink(d.actions[Id(ActionK, d.next) := a], Id(ActionK, d.next))
    ensures Keeps(d, d.(next := d.next + 1, actions := d.actions[Id(ActionK, d.next) := a]))
  {
    hide Inv, Keeps;
    MintedKeys(d);
    MintIds(d, d, d.next + 1);
    PutAction(d, d.(next := d.next + 1), Id(ActionK, d.next), a);
  }

  lemma NewAttemptKeeps(d: Db, id: Id)
    requires Inv(d) && id in d.actions
    ensures Keeps(d, d.(next := d.next + 1, actions := d.actions[Id(ActionK, d.next) := RetryOf(id, d.actions[id])]))
  {
    hide Inv, Keeps, AllMinted;
    StepOfAction(d, id);
    RetryLinksBack(d, id);
    NewActionKeeps(d, RetryOf(id, d.actions[id]));
  }

  lemma StepOfAction(d: Db, a: Id)
    requires Inv(d) && a in d.actions
    ensures d.actions[a].stepId in d.steps && CapabilityFits(d.actions[a], d.steps[d.actions[a].stepId])
  {
    hide Inv, RetryLink, CapabilityFits;
    InvHas(d, ActionsSound);
  }

  lemma RetryLinksBack(d: Db, id: Id)
    requires Inv(d) && id in d.actions
    ensures RetryLink(d.actions[Id(ActionK, d.next) := RetryOf(id, d.actions[id])], Id(ActionK, d.next))
  {
    hide Inv;
    MintedKeys(d);
  }

  lemma RetryCommitKeeps(d: Db, id: Id, owner: Id)
    requires Inv(d) && id in d.actions && owner in d.tasks
    ensures Keeps(d, d.(next := d.next + 1,
                        actions := d.actions[Id(ActionK, d.next) := RetryOf(id, d.actions[id])],
                        tasks := d.tasks[owner := d.tasks[owner].(attemptsUsed := d.tasks[owner].attemptsUsed + 1,
                                                                  revision := d.tasks[owner].revision + 1)]))
  {
    hide Inv, Evolves;
    var d1 := d.(next := d.next + 1, actions := d.actions[Id(ActionK, d.next) := RetryOf(id, d.actions[id])]);
    NewAttemptKeeps(d, id);
    var t := d.tasks[owner];
    var t' := t.(attemptsUsed := t.attemptsUsed + 1, revision := t.revision + 1);
    TaskReplaced(d1, owner, t');
    KeepsTransitive(d, d1, d1.(tasks := d1.tasks[owner := t']));
  }

  lemma RetryKeeps(d: Db, id: Id, expectedTask: nat)
    requires Inv(d)
    ensures Keeps(d, RetryTx(d, id, expectedTask).db)
  {
    hide Inv, Keeps, AllMinted, OwningTask;
    MintedKeys(d);
    if RetryTx(d, id, expectedTask).res.Ok? { RetryCommitKeeps(d, id, OwningTask(d, d.actions[id]).value); }
  }

  lemma CreateActionKeeps(d: Db, c: ActionCall)
    requires Inv(d) && c.CreateAction?
    ensures Keeps(d, CreateActionTx(d, c).db)
  {
    hide Inv, Keeps, AllMinted;
    MintedKeys(d);
    if CreateActionTx(d, c).res.Ok? {
      NewActionKeeps(d, Action(0, c.step, APending, c.capability, c.arguments, c.idempotency, c.confirmation, None, Sound));
    }
  }

  lemma ActionCallKeeps(d: Db, c: ActionCall)
    requires Inv(d)
    ensures Keeps(d, Execution.Apply(d, c).db)
  {
    hide Inv, Keeps, CreateActionTx, MarkObservedTx, MarkUnknownTx, RetryTx, PlanMismatchReason, GateOpens;
    MintedKeys(d);
    match c
    case CreateAction(_, _, _, _, _, _, _) => CreateActionKeeps(d, c);
    case Begin(a, _, _, _) => if a in d.actions { ActionMoves(d, a, Advanced(d.actions[a], AExecuting)); }
    case MarkObserved(a, e, raw, p) => MarkObservedKeeps(d, a, e, raw, p);
    case MarkUnknown(a, e) => MarkUnknownKeeps(d, a, e);
    case MarkFailed(a, _, _) => if a in d.actions { ActionMoves(d, a, Advanced(d.actions[a], AFailed)); }
    case CancelAction(a, _) => if a in d.actions { ActionMoves(d, a, Advanced(d.actions[a], ACancelled)); }
    case Retry(a, e) => RetryKeeps(d, a, e);
    case FreezeAction(a) =>
      if a in d.actions { ActionMoves(d, a, d.actions[a].(integrity := Frozen, revision := d.actions[a].revision + 1)); }
  }

  // -------------------------------------------------------------- evidence and verifications

  lemma EvidenceFacts(d: Db)
    requires Inv(d)
    ensures AllMinted(d) && Keeps(d, d)
    ensures EvidenceOk(d.evidence, d.observations) && ClaimsOk(d.claims, d.evidence)
    ensures VerificationsOk(d.verifications, d.claims, d.steps)
    ensures PassGrounded(d.verifications, d.actions, d.observations)
    ensures ActionsOk(d.actions, d.steps) && ObservedBacked(d.actions, d.observations)
  {
    MintedKeys(d);
    assert Holds(EvidenceSound, d) && Holds(ClaimsSound, d) && Holds(VerificationsSound, d) && Holds(PassIsGrounded, d);
    assert Holds(ActionsSound, d) && Holds(ObservedIsBacked, d);
  }

  lemma InsertEvidenceKeeps(d: Db, e: Evidence)
    requires Inv(d) && e.status != ConfirmedSource && (e.status == ConfirmedRuntime ==> e.origin.Some?)
    requires e.origin.Some? ==> e.origin.value in d.observations
    ensures Keeps(d, InsertEvidence(d, e).db)
  {
    hide Inv, Keeps;
    MintedKeys(d);
    MintIds(d, d, d.next + 1);
    PutEvidence(d, d.(next := d.next + 1), Id(EvidenceK, d.next), e);
  }

  /** The structural check on HIGH is enough, since only runtime evidence is ever confirmed. */
  lemma JustifiedClaim(d: Db, basedOn: seq<Id>, c: Confidence)
    requires EvidenceOk(d.evidence, d.observations) && Cited(d, basedOn) && Justified(d, basedOn, c)
    ensures ClaimJustified(Claim(basedOn, c), d.evidence)
  {
    if c == High {
      var e :| e in basedOn && e in d.evidence && d.evidence[e].status in {ConfirmedSource, ConfirmedRuntime};
      assert d.evidence[e].origin.Some?;
    }
  }

  lemma {:induction false} VersionsFromOne(claims: map<ClaimKey, Claim>, evidence: map<Id, Evidence>, id: Id, v: nat)
    requires ClaimsOk(claims, evidence) && ClaimKey(id, v) in claims
    ensures forall w: nat :: 1 <= w <= v ==> ClaimKey(id, w) in claims
  {
    if v > 1 {
      assert HasPredecessor(claims, ClaimKey(id, v));
      VersionsFromOne(claims, evidence, id, v - 1);
    }
  }

  lemma ClaimKeeps(d: Db, c: EvidenceCall)
    requires Inv(d) && (c.CreateClaim? || c.ReviseClaim?)
    ensures Keeps(d, EvidencePipeline.Apply(d, c).db)
  {
    hide Inv, Keeps, PassGrounded, ObservedBacked, ClaimJustified, Justified, Cited;
    EvidenceFacts(d);
    if EvidencePipeline.Apply(d, c).res.Ok? {
      JustifiedClaim(d, c.basedOn, c.confidence);
      match c {
        case CreateClaim(b, conf) =>
          MintIds(d, d, d.next + 1);
          PutClaim(d, d.(next := d.next + 1), ClaimKey(Id(ClaimK, d.next), 1), Claim(b, conf));
        case ReviseClaim(id, b, conf) =>
          var v := MaxVersion(Versions(d.claims, id));
          assert ClaimKey(id, v) in d.claims;
          assert forall k :: k in d.claims && k.id == id ==> k.version in Versions(d.claims, id);
          PutClaim(d, d, ClaimKey(id, v + 1), Claim(b, conf));
      }
    }
  }

  lemma EvidenceCallKeeps(d: Db, c: EvidenceCall)
    requires Inv(d)
    ensures Keeps(d, EvidencePipeline.Apply(d, c).db)
  {
    hide Inv, Keeps, AllMinted, CreateClaimTx, ReviseClaimTx, CreateVerificationTx, InsertEvidence;
    MintedKeys(d);
    match c
    case RecordRuntime(o) => if o in d.observations { InsertEvidenceKeeps(d, Evidence(ConfirmedRuntime, Some(o))); }
    case CreateInference(_) => InsertEvidenceKeeps(d, Evidence(Inference, None));
    case RecordUser => InsertEvidenceKeeps(d, Evidence(UnknownEvidence, None));
    case CreateVerification(claim, m, l, s) => CreateVerificationKeeps(d, claim, m, l, s);
    case _ => ClaimKeeps(d, c);
  }

  lemma FirstVersion(d: Db, claim: Id)
    requires Inv(d) && ClaimExists(d, claim)
    ensures ClaimKey(claim, 1) in d.claims
  {
    hide Inv, ClaimJustified;
    InvHas(d, ClaimsSound);
    var k :| k in d.claims && k.id == claim;
    assert k == ClaimKey(claim, k.version);
    VersionsFromOne(d.claims, d.evidence, claim, k.version);
  }

  lemma NewVerificationKeeps(d: Db, v: Verification)
    requires Inv(d) && ClaimKey(v.verifies, 1) in d.claims && (v.stepId.Some? ==> v.stepId.value in d.steps)
    requires v.result == VPending
    ensures Keeps(d, d.(next := d.next + 1, verifications := d.verifications[Id(VerificationK, d.next) := v]))
  {
    hide Inv, Keeps, StepObserved;
    MintedKeys(d);
    MintIds(d, d, d.next + 1);
    PutVerification(d, d.(next := d.next + 1), Id(VerificationK, d.next), v);
  }

  lemma CreateVerificationKeeps(d: Db, claim: Id, methodName: string, level: string, step: Option<Id>)
    requires Inv(d)
    ensures Keeps(d, CreateVerificationTx(d, claim, methodName, level, step).db)
  {
    hide Inv, Keeps, AllMinted, ClaimExists;
    MintedKeys(d);
    if CreateVerificationTx(d, claim, methodName, level, step).res.Ok? {
      FirstVersion(d, claim);
      NewVerificationKeeps(d, Verification(claim, methodName, level, VPending, step, false));
    }
  }

  lemma ResultKeeps(d: Db, id: Id, r: VerificationResult, ungated: bool)
    requires Inv(d) && id in d.verifications
    requires r == VPass && d.verifications[id].stepId.Some? && !ungated && d.verifications[id].result != VPass ==>
               StepObserved(d.actions, d.observations, d.verifications[id].stepId.value)
    ensures Keeps(d, SetResult(d, id, r, ungated))
  {
    hide Inv, Keeps, EvidenceOk, ClaimsOk, ActionsOk, ObservedBacked;
    EvidenceFacts(d);
    PutVerification(d, d, id, SetResult(d, id, r, ungated).verifications[id]);
  }

  /** The heart of "emission is not occurrence": an OBSERVED action of the step grounds its PASS. */
  lemma ObservedGrounds(d: Db, action: Id)
    requires Inv(d) && action in d.actions && d.actions[action].status == AObserved
    ensures StepObserved(d.actions, d.observations, d.actions[action].stepId)
  {
    EvidenceFacts(d);
    var o :| o in d.observations && d.observations[o].actionId == action;
    assert d.observations[o].actionId in d.actions && d.actions[d.observations[o].actionId].stepId == d.actions[action].stepId;
  }

  lemma StartVerificationKeeps(d: Db, id: Id, action: Option<Id>)
    requires Inv(d)
    ensures Keeps(d, StartVerificationTx(d, id, action).db)
  {
    hide Inv, Keeps, GateFault;
    MintedKeys(d);
    if id in d.verifications { ResultKeeps(d, id, VRunning, false); }
  }

  /** A step-bound verification finished for an action has a grounded PASS. */
  lemma FinishVerificationKeeps(d: Db, id: Id, action: Option<Id>, verdict: Verdict)
    requires Inv(d)
    ensures Keeps(d, FinishVerificationTx(d, id, action, verdict).db)
  {
    hide Inv, Keeps;
    MintedKeys(d);
    if FinishVerificationTx(d, id, action, verdict).res.Ok? {
      if action.Some? { ObservedGrounds(d, action.value); }
      ResultKeeps(d, id, FinishVerificationTx(d, id, action, verdict).db.verifications[id].result, action.None?);
    }
  }

  // ---------------------------------------------------------- obligations and confirmations

  lemma EventKeeps(d: Db, id: Id, e: Event)
    requires Inv(d) && id in d.obligations && (e.to.Some? ==> ValidOwner(d, e.to.value))
    ensures Keeps(d, Record(d, id, e))
  {
    hide Inv, Keeps;
    MintedKeys(d);
    InvHas(d, ObligationsSound);
    PutObligation(d, d, id, AfterEvent(d.obligations[id], e));
  }

  lemma ObligationCallKeeps(d: Db, c: ObligationCall)
    requires Inv(d)
    ensures Keeps(d, Obligations.Apply(d, c).db)
  {
    hide Inv, Keeps, Concerns, Record;
    MintedKeys(d);
    match c
    case CreateObligation(origin, owner) =>
      if ValidOwner(d, owner) {
        MintIds(d, d, d.next + 1);
        PutObligation(d, d.(next := d.next + 1), Id(ObligationK, d.next), NewObligation(origin, owner));
      }
    case Transfer(o, n, e) =>
      if o in d.obligations && ValidOwner(d, n) { EventKeeps(d, o, Event(EvTransferred, e, Some(n))); }
    case Abandon(o, _, _) =>
      if o in d.obligations { EventKeeps(d, o, Event(EvAbandoned, d.obligations[o].owner, None)); }
    case Resolve(o, _, _) =>
      if o in d.obligations { EventKeeps(d, o, Event(EvResolved, d.obligations[o].owner, None)); }
  }

  lemma SafetyCallKeeps(d: Db, c: SafetyCall)
    requires Inv(d)
    ensures Keeps(d, Safety.Apply(d, c).db)
  {
    hide Inv, Keeps;
    MintedKeys(d);
    match c
    case CreateConfirmation(a, r, cap, args) =>
      MintIds(d, d, d.next + 1);
      PutConfirmation(d, d.(next := d.next + 1), Id(ConfirmationK, d.next), Confirmation(a, r, cap, args, None));
    case Confirm(id, now) =>
      if id in d.confirmations && d.confirmations[id].confirmedAt.None? {
        PutConfirmation(d, d, id, d.confirmations[id].(confirmedAt := Some(now)));
      }
  }

  // ------------------------------------------------------------------------------------ repair

  lemma SettleKeeps(z: Db, d: Db, id: Id, terminal: bool)
    requires Keeps(z, d)
    ensures Keeps(z, Settle(d, id, terminal).db)
  {
    hide Keeps;
    if terminal { MoveSubtreeKeeps(z, d, id); }
  }

  lemma RepairRecordKeeps(d: Db, id: Id, expected: nat, t: Target)
    requires Inv(d)
    ensures Keeps(d, RepairRecordTx(d, id, expected, t).db)
  {
    hide Inv, Keeps, AllMinted, SetResult, FixObligation;
    MintedKeys(d);
    if RepairRecordTx(d, id, expected, t).res.Ok? {
      if id in d.verifications {
        RepairedResultKeeps(d, id, Or(t.vResult, d.verifications[id].result));
      } else {
        RepairedObligationKeeps(d, id, t);
      }
    }
  }

  lemma RepairedResultKeeps(d: Db, id: Id, r: VerificationResult)
    requires Inv(d) && id in d.verifications && (r == VPass ==> d.verifications[id].result == VPass)
    ensures Keeps(d, d.(verifications := d.verifications[id := d.verifications[id].(result := r)]))
  {
    hide Inv, Keeps, StepObserved;
    ResultKeeps(d, id, r, false);
  }

  lemma RepairedObligationKeeps(d: Db, id: Id, t: Target)
    requires Inv(d) && id in d.obligations && t.ObligationFix? && (t.oOwner.Some? ==> ValidOwner(d, t.oOwner.value))
    ensures Keeps(d, d.(obligations := d.obligations[id := FixObligation(d.obligations[id], t)]))
  {
    hide Inv, Keeps;
    InvHas(d, ObligationsSound);
    ObligationReplaced(d, id, FixObligation(d.obligations[id], t));
  }

  lemma ObligationReplaced(d: Db, id: Id, o: Obligation)
    requires Inv(d) && id in d.obligations && ObligationStep(d.obligations[id], o) && ValidOwner(d, o.owner)
    ensures Keeps(d, d.(obligations := d.obligations[id := o]))
  {
    hide Inv, Keeps;
    MintedKeys(d);
    PutObligation(d, d, id, o);
  }

  lemma RepairGoalKeeps(d: Db, id: Id, expected: nat, t: Target)
    requires Inv(d) && id in d.goals
    ensures Keeps(d, RepairGoalTx(d, id, expected, t).db)
  {
    hide Inv, Keeps, Settle, AllMinted;
    MintedKeys(d);
    if RepairGoalTx(d, id, expected, t).res.Ok? {
      var fixed := FixGoal(d.goals[id], t);
      GoalReplaced(d, id, fixed);
      SettleKeeps(d, d.(goals := d.goals[id := fixed]), id, GoalTerminal(fixed.status));
    }
  }

  lemma RepairTaskKeeps(d: Db, id: Id, expected: nat, t: Target)
    requires Inv(d) && id in d.tasks
    ensures Keeps(d, RepairTaskTx(d, id, expected, t).db)
  {
    hide Inv, Keeps, Settle, AllMinted;
    MintedKeys(d);
    if RepairTaskTx(d, id, expected, t).res.Ok? {
      var fixed := FixTask(d.tasks[id], t);
      TaskReplaced(d, id, fixed);
      SettleKeeps(d, d.(tasks := d.tasks[id := fixed]), id, TaskTerminal(fixed.status));
    }
  }

  lemma RepairPlanKeeps(d: Db, id: Id, expected: nat, t: Target)
    requires Inv(d) && id in d.plans
    ensures Keeps(d, RepairPlanTx(d, id, expected, t).db)
  {
    hide Inv, Keeps, Settle, AllMinted, Acyclic;
    MintedKeys(d);
    if RepairPlanTx(d, id, expected, t).res.Ok? {
      var fixed := FixPlan(d.plans[id], t);
      PlanReplaced(d, id, fixed);
      SettleKeeps(d, d.(plans := d.plans[id := fixed]), id, PlanTerminal(fixed.status));
    }
  }

  lemma RepairStepKeeps(d: Db, id: Id, expected: nat, t: Target)
    requires Inv(d) && id in d.steps
    ensures Keeps(d, RepairStepTx(d, id, expected, t).db)
  {
    hide Inv, Keeps, Settle, AllMinted;
    MintedKeys(d);
    if RepairStepTx(d, id, expected, t).res.Ok? {
      var fixed := FixStep(d.steps[id], t);
      StepReplaced(d, id, fixed);
      SettleKeeps(d, d.(steps := d.steps[id := fixed]), id, StepTerminal(fixed.status));
    }
  }

  lemma RepairActionKeeps(d: Db, id: Id, expected: nat, t: Target)
    requires Inv(d) && id in d.actions
    ensures Keeps(d, RepairActionTx(d, id, expected, t).db)
  {
    hide Inv, Keeps, Settle, AllMinted;
    MintedKeys(d);
    if RepairActionTx(d, id, expected, t).res.Ok? {
      var fixed := FixAction(d.actions[id], t);
      ActionMoves(d, id, fixed);
      SettleKeeps(d, d.(actions := d.actions[id := fixed]), id, ActionTerminal(fixed.status));
    }
  }

  lemma RepairKeeps(d: Db, id: Id, expected: nat, t: Target, justified: bool)
    requires Inv(d)
    ensures Keeps(d, RepairTx(d, id, expected, t, justified).db)
  {
    hide Inv, Keeps, AllMinted, RepairGoalTx, RepairTaskTx, RepairPlanTx, RepairStepTx, RepairActionTx, RepairRecordTx;
    MintedKeys(d);
    match Load(d, id)
    case AGoal(_) => RepairGoalKeeps(d, id, expected, t);
    case ATask(_) => RepairTaskKeeps(d, id, expected, t);
    case APlan(_) => RepairPlanKeeps(d, id, expected, t);
    case AStep(_) => RepairStepKeeps(d, id, expected, t);
    case AnAction(_) => RepairActionKeeps(d, id, expected, t);
    case NoObject => RepairRecordKeeps(d, id, expected, t);
  }

  lemma AbandonUnrepairableKeeps(d: Db, id: Id, expected: nat)
    requires Inv(d)
    ensures Keeps(d, AbandonUnrepairableTx(d, id, expected).db)
  {
    hide Inv, Keeps, Settle, AllMinted;
    MintedKeys(d);
    if AbandonUnrepairableTx(d, id, expected).res.Ok? {
      match Load(d, id)
      case AGoal(g) =>
        var g' := g.(integrity := AbandonedUnrepairable, revision := g.revision + 1);
        GoalReplaced(d, id, g');
        SettleKeeps(d, d.(goals := d.goals[id := g']), id, true);
      case ATask(k) =>
        var k' := k.(integrity := AbandonedUnrepairable, revision := k.revision + 1);
        TaskReplaced(d, id, k');
        SettleKeeps(d, d.(tasks := d.tasks[id := k']), id, true);
      case AnAction(a) =>
        var a' := a.(integrity := AbandonedUnrepairable, revision := a.revision + 1);
        ActionMoves(d, id, a');
        SettleKeeps(d, d.(actions := d.actions[id := a']), id, true);
      case _ =>
    }
  }

  lemma RepairCallKeeps(d: Db, c: RepairCall)
    requires Inv(d)
    ensures Keeps(d, Repair.Apply(d, c).db)
  {
    hide Inv, Keeps, RepairTx, AbandonUnrepairableTx;
    match c
    case RepairObject(id, e, t, j) => RepairKeeps(d, id, e, t, j);
    case AbandonUnrepairable(id, e) => AbandonUnrepairableKeeps(d, id, e);
  }
}
