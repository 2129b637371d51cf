/** Which obligations can ever be resolved: without repair, once the origin action is finished, exactly those whose
    action was OBSERVED. */
module Resolution {
  import opened Types
  import opened Obligations
  import opened EvidencePipeline
  import opened Invariants
  import opened RowWrites
  import opened Kernel
  import opened RunProofs
  import opened RunTheorems
  import opened Theorems

  lemma {:induction false} RunMore(w: World, labels: seq<Label>, l: Label)
    ensures Run(w, labels + [l]) == Next(Run(w, labels), l)
    ensures RepairFree(labels) && !IsRepair(l) ==> RepairFree(labels + [l])
  {
    hide Next;
    assert (labels + [l])[..|labels|] == labels;
  }

  // ----------------------------------------------------- the six commits that resolve

  lemma EvidenceOfObservation(w: World, obs: Id)
    requires obs in w.db.observations
    ensures var ev := Id(EvidenceK, w.db.next);
            Next(w, Do(OfEvidence(RecordRuntime(obs)))).db
            == w.db.(next := w.db.next + 1, evidence := w.db.evidence[ev := Evidence(ConfirmedRuntime, Some(obs))])
  {
  }

  lemma ClaimFromEvidence(w: World, ev: Id)
    requires ev in w.db.evidence
    ensures var claim := Id(ClaimK, w.db.next);
            Next(w, Do(OfEvidence(CreateClaim([ev], Low)))).db
            == w.db.(next := w.db.next + 1, claims := w.db.claims[ClaimKey(claim, 1) := Claim([ev], Low)])
  {
  }

  lemma VerificationOfClaim(w: World, claim: Id)
    requires ClaimExists(w.db, claim)
    ensures var l := Do(OfEvidence(CreateVerification(claim, "check", "deterministic", None)));
            var v := Id(VerificationK, w.db.next);
            Next(w, l).db == w.db.(next := w.db.next + 1,
                 verifications := w.db.verifications[v := Verification(claim, "check", "deterministic", VPending, None, false)])
  {
    hide ClaimExists;
  }

  lemma VerificationPasses(w: World, p: nat, v: Id)
    requires p !in w.workers && v in w.db.verifications && w.db.verifications[v].result == VPending
    requires ClaimExists(w.db, w.db.verifications[v].verifies)
    ensures var w' := Next(Next(w, VerifyStart(p, v, None)), VerifyEnd(p, Satisfied));
            && w'.db == w.db.(verifications := w'.db.verifications)
            && v in w'.db.verifications && w'.db.verifications[v].result == VPass
            && w'.db.verifications[v].verifies == w.db.verifications[v].verifies
  {
    hide ClaimExists, StartVerificationTx, FinishVerificationTx;
    var d1 := SetResult(w.db, v, VRunning, false);
    SameClaims(w.db, d1, w.db.verifications[v].verifies);
    UngatedStart(w.db, v);
    UngatedFinish(d1, v);
  }

  lemma UngatedStart(d: Db, v: Id)
    requires v in d.verifications && d.verifications[v].result == VPending
    ensures StartVerificationTx(d, v, None) == Done(SetResult(d, v, VRunning, false))
  {
  }

  lemma UngatedFinish(d: Db, v: Id)
    requires v in d.verifications && ClaimExists(d, d.verifications[v].verifies)
    ensures FinishVerificationTx(d, v, None, Satisfied) == Done(SetResult(d, v, VPass, true))
  {
    hide ClaimExists;
  }

  lemma SameClaims(d: Db, d': Db, id: Id)
    requires d'.claims == d.claims
    ensures ClaimExists(d', id) == ClaimExists(d, id)
  {
  }

  lemma PassResolves(w: World, o: Id, v: Id)
    requires o in w.db.obligations && w.db.obligations[o].disposition == Open
    requires v in w.db.verifications && w.db.verifications[v].result == VPass
    requires Concerns(w.db, w.db.verifications[v].verifies, w.db.obligations[o].origin)
    ensures var d' := Next(w, Do(OfObligation(Resolve(o, v, w.db.obligations[o].revision)))).db;
            o in d'.obligations && d'.obligations[o].disposition == Resolved
  {
    hide Concerns;
  }

  /** A fresh claim citing evidence of the action's Observation concerns the action. */
  lemma FreshClaimConcerns(d: Db, claim: Id, ev: Id, obs: Id)
    requires ClaimKey(claim, 1) in d.claims && d.claims[ClaimKey(claim, 1)].basedOn == [ev]
    requires forall k :: k in d.claims && k.id == claim ==> k.version == 1
    requires ev in d.evidence && d.evidence[ev].origin == Some(obs) && obs in d.observations
    ensures Concerns(d, claim, d.observations[obs].actionId)
  {
    assert Newest(d.claims, claim, 1);
    assert ev in d.claims[ClaimKey(claim, 1)].basedOn;
    assert EvidenceOf(d.evidence, d.observations, ev, d.observations[obs].actionId);
  }

  /** A PENDING verification, bound to no step, of a claim that concerns the origin of o. */
  ghost predicate Prepared(d: Db, o: Id, v: Id) {
    && o in d.obligations && d.obligations[o].disposition == Open
    && v in d.verifications && d.verifications[v].result == VPending
    && ClaimExists(d, d.verifications[v].verifies)
    && Concerns(d, d.verifications[v].verifies, d.obligations[o].origin)
  }

  /** Evidence of the origin's Observation is on record, and the next claim id is unused. */
  predicate EvidenceReady(d: Db, o: Id, ev: Id, obs: Id) {
    && o in d.obligations && d.obligations[o].disposition == Open
    && obs in d.observations && d.observations[obs].actionId == d.obligations[o].origin
    && ev in d.evidence && d.evidence[ev].origin == Some(obs)
    && forall k :: k in d.claims ==> k.id.n < d.next
  }

  ghost predicate ClaimReady(d: Db, o: Id, claim: Id) {
    && o in d.obligations && d.obligations[o].disposition == Open
    && ClaimExists(d, claim) && Concerns(d, claim, d.obligations[o].origin)
  }

  lemma EvidenceCommits(w: World, o: Id, obs: Id)
    requires Inv(w.db) && o in w.db.obligations && w.db.obligations[o].disposition == Open
    requires obs in w.db.observations && w.db.observations[obs].actionId == w.db.obligations[o].origin
    ensures EvidenceReady(Next(w, Do(OfEvidence(RecordRuntime(obs)))).db, o, Id(EvidenceK, w.db.next), obs)
  {
    hide Inv, Next;
    MintedKeys(w.db);
    EvidenceOfObservation(w, obs);
  }

  lemma ClaimCommits(w: World, o: Id, ev: Id, obs: Id)
    requires EvidenceReady(w.db, o, ev, obs)
    ensures ClaimReady(Next(w, Do(OfEvidence(CreateClaim([ev], Low)))).db, o, Id(ClaimK, w.db.next))
  {
    hide Next, ClaimExists, Concerns;
    var claim := Id(ClaimK, w.db.next);
    ClaimFromEvidence(w, ev);
    FreshClaimConcerns(Next(w, Do(OfEvidence(CreateClaim([ev], Low)))).db, claim, ev, obs);
    ExistsByVersion(Next(w, Do(OfEvidence(CreateClaim([ev], Low)))).db, claim);
  }

  lemma VerificationCommits(w: World, o: Id, claim: Id)
    requires ClaimReady(w.db, o, claim)
    ensures Prepared(Next(w, Do(OfEvidence(CreateVerification(claim, "check", "deterministic", None)))).db, o,
                     Id(VerificationK, w.db.next))
  {
    hide Next, ClaimExists, Concerns;
    var w' := Next(w, Do(OfEvidence(CreateVerification(claim, "check", "deterministic", None))));
    VerificationOfClaim(w, claim);
    SameClaims(w.db, w'.db, claim);
    SameConcerns(w.db, w'.db, claim, w.db.obligations[o].origin);
  }

  lemma ClaimPrepared(w: World, o: Id, obs: Id) returns (labels: seq<Label>, v: Id)
    requires Inv(w.db) && o in w.db.obligations && w.db.obligations[o].disposition == Open
    requires obs in w.db.observations && w.db.observations[obs].actionId == w.db.obligations[o].origin
    ensures RepairFree(labels) && Prepared(Run(w, labels).db, o, v) && Run(w, labels).workers == w.workers
  {
    hide Inv, Next, Run, ClaimExists, Concerns, EvidenceReady, ClaimReady, Prepared;
    var ev := Id(EvidenceK, w.db.next);
    var l1, l2 := Do(OfEvidence(RecordRuntime(obs))), Do(OfEvidence(CreateClaim([ev], Low)));
    var w1 := Next(w, l1);
    EvidenceCommits(w, o, obs);
    var claim := Id(ClaimK, w1.db.next);
    var l3 := Do(OfEvidence(CreateVerification(claim, "check", "deterministic", None)));
    var w2 := Next(w1, l2);
    ClaimCommits(w1, o, ev, obs);
    VerificationCommits(w2, o, claim);
    labels, v := [l1, l2, l3], Id(VerificationK, w2.db.next);
    DoKeepsWorkers(w, l1);
    DoKeepsWorkers(w1, l2);
    DoKeepsWorkers(w2, l3);
    RunThree(w, l1, l2, l3);
  }

  lemma DoKeepsWorkers(w: World, l: Label)
    requires l.Do?
    ensures Next(w, l).workers == w.workers
  {
    hide Perform;
  }

  /** From an Observation of its origin action, any OPEN obligation can be resolved by six ordinary commits. */
  lemma ObservedCanResolve(w: World, o: Id, obs: Id, p: nat) returns (labels: seq<Label>)
    requires Inv(w.db) && p !in w.workers && o in w.db.obligations && w.db.obligations[o].disposition == Open
    requires obs in w.db.observations && w.db.observations[obs].actionId == w.db.obligations[o].origin
    ensures RepairFree(labels) && o in Run(w, labels).db.obligations
    ensures Run(w, labels).db.obligations[o].disposition == Resolved
  {
    hide Inv, Next, Run, ClaimExists, Concerns;
    var before, v := ClaimPrepared(w, o, obs);
    var w3 := Run(w, before);
    var w5 := Next(Next(w3, VerifyStart(p, v, None)), VerifyEnd(p, Satisfied));
    VerificationPasses(w3, p, v);
    SameConcerns(w3.db, w5.db, w3.db.verifications[v].verifies, w3.db.obligations[o].origin);
    PassResolves(w5, o, v);
    RunMore(w, before, VerifyStart(p, v, None));
    RunMore(w, before + [VerifyStart(p, v, None)], VerifyEnd(p, Satisfied));
    var passed := before + [VerifyStart(p, v, None)] + [VerifyEnd(p, Satisfied)];
    var l6 := Do(OfObligation(Resolve(o, v, w5.db.obligations[o].revision)));
    RunMore(w, passed, l6);
    labels := passed + [l6];
  }

  lemma ExistsByVersion(d: Db, claim: Id)
    requires ClaimKey(claim, 1) in d.claims
    ensures ClaimExists(d, claim)
  {
  }

  lemma SameConcerns(d: Db, d': Db, claim: Id, action: Id)
    requires Concerns(d, claim, action)
    requires d'.claims == d.claims && d'.evidence == d.evidence && d'.observations == d.observations
    ensures Concerns(d', claim, action)
  {
  }

  /** Without repair, an OPEN obligation whose origin action has finished can be resolved at some later point exactly
      when that action is OBSERVED: one born in mark_unknown_outcome never can. */
  lemma {:induction false} ResolvableIffObserved(w: World, o: Id, p: nat)
    requires CleanlyReachable(w) && p !in w.workers && o in w.db.obligations && w.db.obligations[o].disposition == Open
    requires w.db.obligations[o].origin in w.db.actions && ActionTerminal(w.db.actions[w.db.obligations[o].origin].status)
    ensures (exists labels :: RepairFree(labels) && o in Run(w, labels).db.obligations
                              && Run(w, labels).db.obligations[o].disposition == Resolved)
       <==> w.db.actions[w.db.obligations[o].origin].status == AObserved
  {
    hide Inv, Strict, WorldOk, CleanlyReachable, Reachable, Run;
    CleanOk(w);
    var a := w.db.obligations[o].origin;
    if w.db.actions[a].status == AObserved {
      ObservedHasObservation(w, a);
      var obs :| obs in w.db.observations && w.db.observations[obs].actionId == a;
      var labels := ObservedCanResolve(w, o, obs, p);
    } else {
      forall labels | RepairFree(labels) && o in Run(w, labels).db.obligations
        ensures Run(w, labels).db.obligations[o].disposition != Resolved
      {
        UnobservedStaysUnresolved(w, labels, o);
      }
    }
  }

  lemma {:induction false} UnobservedStaysUnresolved(w: World, labels: seq<Label>, o: Id)
    requires CleanlyReachable(w) && RepairFree(labels)
    requires o in w.db.obligations && w.db.obligations[o].origin in w.db.actions
    requires ActionTerminal(w.db.actions[w.db.obligations[o].origin].status)
    requires w.db.actions[w.db.obligations[o].origin].status != AObserved
    ensures o in Run(w, labels).db.obligations && Run(w, labels).db.obligations[o].disposition != Resolved
  {
    hide Inv, Strict, Run, WorldOk, CleanlyReachable, Reachable, Evolves, EffectEstablished;
    CleanOk(w);
    ObligationsPersist(w, labels, o);
    TerminalIsForever(w, labels, w.db.obligations[o].origin);
    CleanlyOnward(w, labels);
    if Run(w, labels).db.obligations[o].disposition == Resolved { ResolvedIsEstablished(Run(w, labels), o); }
  }
}
