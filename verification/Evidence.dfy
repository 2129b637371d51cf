/** Evidence, versioned claims and verifications (v5/evidence.py). */
module EvidencePipeline {
  import opened Types

  /** What the evaluator of a verification answers: a boolean, nothing, or an exception. */
  datatype Verdict = Satisfied | Violated | Undecided | EvaluatorError

  datatype EvidenceCall =
    | RecordRuntime(observation: Id)
    | CreateInference(basedOn: seq<Id>)
    | RecordUser
    | CreateClaim(basedOn: seq<Id>, confidence: Confidence)
    | ReviseClaim(claim: Id, basedOn: seq<Id>, confidence: Confidence)
    | CreateVerification(claim: Id, methodName: string, level: string, step: Option<Id>)

  /** The observation obs records that the action returned raw. */
  predicate ObservedAs(d: Db, action: Id, raw: string, obs: Id) {
    obs in d.observations && d.observations[obs] == Observation(action, raw)
  }

  /** Evidence ev is runtime evidence of the observation. */
  predicate RestsOn(d: Db, ev: Id, obs: Id) { ev in d.evidence && d.evidence[ev] == Evidence(ConfirmedRuntime, Some(obs)) }

  predicate Passed(d: Db, v: Id) { v in d.verifications && d.verifications[v].result == VPass }

  function InsertEvidence(d: Db, e: Evidence): (r: Tx)
    ensures r.db == d.(next := r.db.next, evidence := r.db.evidence)
  {
    var id := Id(EvidenceK, d.next);
    Made(d.(next := d.next + 1, evidence := d.evidence[id := e]), id)
  }

  predicate Cited(d: Db, basedOn: seq<Id>) { forall e :: e in basedOn ==> e in d.evidence }

  predicate ClaimExists(d: Db, id: Id) { exists k :: k in d.claims && k.id == id }

  /** _confidence_justified. */
  predicate Justified(d: Db, basedOn: seq<Id>, c: Confidence) {
    c == High ==> exists e :: e in basedOn && e in d.evidence
                              && d.evidence[e].status in {ConfirmedSource, ConfirmedRuntime}
  }

  function CreateClaimTx(d: Db, basedOn: seq<Id>, c: Confidence): (r: Tx)
    ensures r.db == d.(next := r.db.next, claims := r.db.claims)
  {
    if !Cited(d, basedOn) then Reject(d, NotFound)
    else if !Justified(d, basedOn, c) then Reject(d, ConfidenceNotJustified)
    else
      var id := Id(ClaimK, d.next);
      Made(d.(next := d.next + 1, claims := d.claims[ClaimKey(id, 1) := Claim(basedOn, c)]), id)
  }

  /** SELECT MAX(version): the largest version in a non-empty set. */
  ghost function MaxVersion(s: set<nat>): (m: nat)
    requires s != {}
    ensures m in s && forall v :: v in s ==> v <= m
  {
    var v :| v in s;
    if s == {v} then v
    else
      assert s == (s - {v}) + {v};
      var m := MaxVersion(s - {v});
      if m < v then v else m
  }

  function Versions(claims: map<ClaimKey, Claim>, id: Id): set<nat> {
    set k | k in claims && k.id == id :: k.version
  }

  ghost function ReviseClaimTx(d: Db, id: Id, basedOn: seq<Id>, c: Confidence): (r: Tx)
    ensures r.db == d.(claims := r.db.claims)
  {
    if Versions(d.claims, id) == {} then Reject(d, NotFound)
    else if !Cited(d, basedOn) then Reject(d, NotFound)
    else if !Justified(d, basedOn, c) then Reject(d, ConfidenceNotJustified)
    else
      var v := MaxVersion(Versions(d.claims, id)) + 1;
      Done(d.(claims := d.claims[ClaimKey(id, v) := Claim(basedOn, c)]))
  }

  const LEVELS := {"deterministic", "direct_observation", "independent_capability",
                   "derived_computation", "llm_evaluation", "self_report"}

  function CreateVerificationTx(d: Db, claim: Id, methodName: string, level: string, step: Option<Id>): (r: Tx)
    ensures r.db == d.(next := r.db.next, verifications := r.db.verifications)
  {
    if level !in LEVELS then Reject(d, InvalidIndependence)
    else if !ClaimExists(d, claim) then Reject(d, NotFound)
    else if step.Some? && step.value !in d.steps then Reject(d, NotFound)
    else
      var id := Id(VerificationK, d.next);
      Made(d.(next := d.next + 1,
              verifications := d.verifications[id := Verification(claim, methodName, level, VPending, step, false)]), id)
  }

  ghost function Apply(d: Db, c: EvidenceCall): Tx {
    match c
    case RecordRuntime(o) =>
      if o !in d.observations then Reject(d, NotFound)
      else InsertEvidence(d, Evidence(ConfirmedRuntime, Some(o)))
    case CreateInference(basedOn) =>
      if exists e :: e in basedOn && e !in d.evidence && !ClaimExists(d, e) then Reject(d, NotFound)
      else InsertEvidence(d, Evidence(Inference, None))
    case RecordUser => InsertEvidence(d, Evidence(UnknownEvidence, None))
    case CreateClaim(b, conf) => CreateClaimTx(d, b, conf)
    case ReviseClaim(id, b, conf) => ReviseClaimTx(d, id, b, conf)
    case CreateVerification(cl, m, l, s) => CreateVerificationTx(d, cl, m, l, s)
  }

  // ----------------------------------------- run_verification, two transactions

  /** The gate both transactions evaluate: the action is OBSERVED and, for a
      step-bound verification, belongs to that step. */
  function GateFault(d: Db, v: Verification, action: Option<Id>): Option<Reason> {
    if action.None? then None
    else if action.value !in d.actions || d.actions[action.value].status != AObserved then Some(ActionNotExecuted)
    else if v.stepId.Some? && d.actions[action.value].stepId != v.stepId.value then Some(ActionNotBound)
    else None
  }

  function SetResult(d: Db, id: Id, r: VerificationResult, ungated: bool): Db
    requires id in d.verifications
  {
    var v := d.verifications[id];
    d.(verifications := d.verifications[id := v.(result := r, ungated := v.ungated || ungated)])
  }

  /** First transaction: commit RUNNING. */
  function StartVerificationTx(d: Db, id: Id, action: Option<Id>): (r: Tx)
    ensures r.db == d.(verifications := r.db.verifications)
  {
    if id !in d.verifications then Reject(d, NotFound)
    else
      var v := d.verifications[id];
      if v.result !in {VPending, VRunning} then Reject(d, AlreadyFinal)
      else if action.Some? && action.value !in d.actions then Reject(d, NotFound)
      else if GateFault(d, v, action).Some? then Reject(d, GateFault(d, v, action).value)
      else Done(SetResult(d, id, VRunning, false))
  }

  /** Second transaction: commit the verdict. RUNNING is not checked again; a missing
      row or claim would raise. */
  function FinishVerificationTx(d: Db, id: Id, action: Option<Id>, verdict: Verdict): (r: Tx)
    ensures r.db == d.(verifications := r.db.verifications)
  {
    if id !in d.verifications then Tx(d, Raised)
    else
      var v := d.verifications[id];
      if GateFault(d, v, action).Some? then Reject(d, GateFault(d, v, action).value)
      else if !ClaimExists(d, v.verifies) then Tx(d, Raised)
      else Done(SetResult(d, id, match verdict
                                 case Satisfied => VPass
                                 case Violated => VFail
                                 case _ => VInconclusive, action.None?))
  }
}
