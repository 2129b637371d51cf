/** The records of the kernel call by call: when each is written and as what (v5/evidence.py, v5/obligations.py and the
    creations and bindings of v5/work.py). */
module Records {
  import opened Types
  import opened Obligations
  import opened EvidencePipeline
  import opened Work
  import opened Invariants
  import opened RowWrites
  import opened Completion
  import opened Endings

  // ----------------------------------------------------------------------------- evidence

  /** A new row under the next number of its kind, which no row has. */
  predicate NewRow<T>(before: map<Id, T>, r: Tx, k: Kind, next: nat) {
    r.res == Ok(Some(Id(k, next)), 0) && r.db.next == next + 1 && Id(k, next) !in before
  }

  /** Runtime evidence: exactly of an existing Observation, CONFIRMED_RUNTIME, with that Observation as its origin. */
  lemma RuntimeEvidence(d: Db, obs: Id)
    requires Inv(d)
    ensures var r := EvidencePipeline.Apply(d, RecordRuntime(obs));
            && (r.res.Ok? <==> obs in d.observations)
            && if r.res.Ok?
               then NewRow(d.evidence, r, EvidenceK, d.next)
                    && r.db == d.(next := d.next + 1,
                         evidence := d.evidence[Id(EvidenceK, d.next) := Evidence(ConfirmedRuntime, Some(obs))])
               else r.db == d
  {
    hide Inv;
    MintedKeys(d);
  }

  /** id is an evidence row or a claim of some version. */
  ghost predicate Referable(d: Db, id: Id) { id in d.evidence || exists v: nat :: ClaimKey(id, v) in d.claims }

  lemma ReferableClaims(d: Db, id: Id)
    ensures Referable(d, id) <==> id in d.evidence || ClaimExists(d, id)
  {
    if k :| k in d.claims && k.id == id { assert ClaimKey(id, k.version) in d.claims; }
  }

  lemma AllReferable(d: Db, basedOn: seq<Id>)
    ensures (forall e :: e in basedOn ==> Referable(d, e)) <==> forall e :: e in basedOn ==> e in d.evidence || ClaimExists(d, e)
  {
    hide ClaimExists, Referable;
    forall e ensures Referable(d, e) <==> e in d.evidence || ClaimExists(d, e) { ReferableClaims(d, e); }
  }

  /** An inference: exactly when everything it rests on is evidence or a claim; never more than INFERENCE, without origin. */
  lemma InferredEvidence(d: Db, basedOn: seq<Id>)
    requires Inv(d)
    ensures var r := EvidencePipeline.Apply(d, CreateInference(basedOn));
            && (r.res.Ok? <==> forall e :: e in basedOn ==> Referable(d, e))
            && if r.res.Ok?
               then NewRow(d.evidence, r, EvidenceK, d.next)
                    && r.db == d.(next := d.next + 1, evidence := d.evidence[Id(EvidenceK, d.next) := Evidence(Inference, None)])
               else r.db == d
  {
    hide Inv, ClaimExists, Referable;
    assert Id(EvidenceK, d.next) !in d.evidence by { MintedKeys(d); }
    AllReferable(d, basedOn);
  }

  /** What a user says is always recorded, as UNKNOWN and without origin. */
  lemma UserEvidence(d: Db)
    requires Inv(d)
    ensures var r := EvidencePipeline.Apply(d, RecordUser);
            && NewRow(d.evidence, r, EvidenceK, d.next)
            && r.db == d.(next := d.next + 1, evidence := d.evidence[Id(EvidenceK, d.next) := Evidence(UnknownEvidence, None)])
  {
    hide Inv;
    MintedKeys(d);
  }

  /** Citations a claim of this confidence may rest on: all exist, and for HIGH one of them is CONFIRMED. */
  predicate MayClaim(d: Db, basedOn: seq<Id>, confidence: Confidence) {
    && (forall e :: e in basedOn ==> e in d.evidence)
    && (confidence == High ==>
          exists e :: e in basedOn && e in d.evidence && d.evidence[e].status in {ConfirmedSource, ConfirmedRuntime})
  }

  /** A claim: exactly on citations it may rest on, as version 1 of an unused id. */
  lemma NewClaim(d: Db, basedOn: seq<Id>, confidence: Confidence)
    requires Inv(d)
    ensures var r, c := EvidencePipeline.Apply(d, CreateClaim(basedOn, confidence)), Id(ClaimK, d.next);
            && (r.res.Ok? <==> MayClaim(d, basedOn, confidence))
            && if r.res.Ok?
               then r.res == Ok(Some(c), 0) && (forall k :: k in d.claims ==> k.id != c)
                    && r.db == d.(next := d.next + 1, claims := d.claims[ClaimKey(c, 1) := Claim(basedOn, confidence)])
               else r.db == d
  {
    hide Inv;
    MintedKeys(d);
  }

  /** A revision: exactly of an existing claim, on such citations, as the version after the newest; every earlier version
      stays. */
  lemma RevisedClaim(d: Db, claim: Id, basedOn: seq<Id>, confidence: Confidence)
    ensures var r := EvidencePipeline.Apply(d, ReviseClaim(claim, basedOn, confidence));
            && (r.res.Ok? <==> (exists v: nat :: ClaimKey(claim, v) in d.claims) && MayClaim(d, basedOn, confidence))
            && if r.res.Ok?
               then exists v: nat ::
                      && ClaimKey(claim, v) in d.claims && (forall u: nat :: ClaimKey(claim, u) in d.claims ==> u <= v)
                      && ClaimKey(claim, v + 1) !in d.claims
                      && r.db == d.(claims := d.claims[ClaimKey(claim, v + 1) := Claim(basedOn, confidence)])
               else r.db == d
  {
    var vs := Versions(d.claims, claim);
    if v: nat :| ClaimKey(claim, v) in d.claims { assert ClaimKey(claim, v).version in vs; }
    if vs != {} {
      var v := MaxVersion(vs);
      var k :| k in d.claims && k.id == claim && k.version == v;
      assert k == ClaimKey(claim, v);
      forall u: nat | ClaimKey(claim, u) in d.claims ensures u <= v { assert ClaimKey(claim, u).version in vs; }
    }
  }

  // ------------------------------------------------------------------------ verifications

  /** The six levels of v5/evidence.py:281-284, weakest last. */
  predicate KnownLevel(level: string) {
    || level == "deterministic" || level == "direct_observation" || level == "independent_capability"
    || level == "derived_computation" || level == "llm_evaluation" || level == "self_report"
  }

  /** A verification: exactly of an existing claim, at a known level, for an existing step when one is named; PENDING, and
      no other row changes. */
  lemma NewVerification(d: Db, claim: Id, methodName: string, level: string, step: Option<Id>)
    requires Inv(d)
    ensures var r, v := EvidencePipeline.Apply(d, CreateVerification(claim, methodName, level, step)), Id(VerificationK, d.next);
            && (r.res.Ok? <==> && KnownLevel(level) && (exists n: nat :: ClaimKey(claim, n) in d.claims)
                               && (step.Some? ==> step.value in d.steps))
            && if r.res.Ok?
               then NewRow(d.verifications, r, VerificationK, d.next)
                    && r.db == d.(next := d.next + 1,
                         verifications := d.verifications[v := Verification(claim, methodName, level, VPending, step, false)])
               else r.db == d
  {
    hide Inv, KnownLevel, ClaimExists;
    assert Id(VerificationK, d.next) !in d.verifications by { MintedKeys(d); }
    Levels(level);
    SomeVersion(d, claim);
    VerificationInserted(d, claim, methodName, level, step);
  }

  lemma Levels(level: string)
    ensures level in LEVELS <==> KnownLevel(level)
  {
  }

  lemma SomeVersion(d: Db, claim: Id)
    ensures ClaimExists(d, claim) <==> exists n: nat :: ClaimKey(claim, n) in d.claims
  {
    if k :| k in d.claims && k.id == claim { assert ClaimKey(claim, k.version) in d.claims; }
  }

  lemma VerificationInserted(d: Db, claim: Id, methodName: string, level: string, step: Option<Id>)
    ensures var r, v := CreateVerificationTx(d, claim, methodName, level, step), Id(VerificationK, d.next);
            if level in LEVELS && ClaimExists(d, claim) && (step.Some? ==> step.value in d.steps)
            then r == Made(d.(next := d.next + 1,
                      verifications := d.verifications[v := Verification(claim, methodName, level, VPending, step, false)]), v)
            else r.res.Rejected? && r.db == d
  {
    hide ClaimExists;
  }

  /** The gate is open: no action is named, or it is OBSERVED and of the step the verification is bound to. */
  predicate GateOpen(d: Db, v: Id, action: Option<Id>)
    requires v in d.verifications
  {
    action.Some? ==>
      && action.value in d.actions && d.actions[action.value].status == AObserved
      && (d.verifications[v].stepId.Some? ==> d.actions[action.value].stepId == d.verifications[v].stepId.value)
  }

  /** Evaluating begins exactly for a PENDING or RUNNING verification with an open gate, and commits RUNNING. */
  lemma EvaluationBegins(d: Db, v: Id, action: Option<Id>)
    ensures var r := StartVerificationTx(d, v, action);
            && (r.res.Ok? <==> v in d.verifications && d.verifications[v].result in {VPending, VRunning} && GateOpen(d, v, action))
            && r.db == if r.res.Ok? then d.(verifications := d.verifications[v := d.verifications[v].(result := VRunning)]) else d
  {
  }

  /** It ends, whatever the result is by then, exactly for a verification with an open gate whose claim exists: PASS when
      satisfied, FAIL when violated, INCONCLUSIVE when the evaluator gave no answer or failed. */
  lemma EvaluationEnds(d: Db, v: Id, action: Option<Id>, verdict: Verdict)
    ensures var r := FinishVerificationTx(d, v, action, verdict);
            && (r.res.Ok? <==> v in d.verifications && GateOpen(d, v, action)
                               && exists n: nat :: ClaimKey(d.verifications[v].verifies, n) in d.claims)
            && (!r.res.Ok? ==> r.db == d)
            && (r.res.Ok? ==>
                  && v in r.db.verifications
                  && (r.db.verifications[v].result == VPass <==> verdict == Satisfied)
                  && (r.db.verifications[v].result == VFail <==> verdict == Violated)
                  && (r.db.verifications[v].result == VInconclusive <==> verdict in {Undecided, EvaluatorError})
                  && r.db == d.(verifications := d.verifications[v := d.verifications[v].(result := r.db.verifications[v].result,
                                  ungated := d.verifications[v].ungated || action.None?)]))
  {
    hide ClaimExists, GateFault, GateOpen;
    if v in d.verifications {
      GateMeans(d, v, action);
      SomeVersion(d, d.verifications[v].verifies);
    }
  }

  lemma GateMeans(d: Db, v: Id, action: Option<Id>)
    requires v in d.verifications
    ensures GateFault(d, d.verifications[v], action).None? <==> GateOpen(d, v, action)
  {
  }

  // ------------------------------------------------------------------------- bindings

  /** Binding commits exactly for a goal or task and an existing verification. From then on the object cannot be completed
      unless that verification is PASS. */
  lemma BindingBinds(d: Db, obj: Id, v: Id, expected: nat, criterion: bool)
    requires Inv(d)
    ensures var r := Work.Apply(d, Bind(obj, v));
            && (r.res.Ok? <==> (obj in d.goals || obj in d.tasks) && v in d.verifications)
            && r.db == (if r.res.Ok? then d.(required := d.required + {(obj, v)}) else d)
            && (r.res.Ok? && d.verifications[v].result != VPass ==> !Work.Apply(r.db, Complete(obj, expected, criterion)).res.Ok?)
  {
    hide Inv, BindTx, CompleteTx;
    OneKind(d, obj);
    BindingWrites(d, obj, v);
    var r := BindTx(d, obj, v);
    if r.res.Ok? && d.verifications[v].result != VPass {
      assert (obj, v) in r.db.required;
      UnpassedBlocks(r.db, obj, v, expected, criterion);
    }
  }

  lemma BindingWrites(d: Db, obj: Id, v: Id)
    requires obj in d.goals || obj in d.tasks ==> obj !in d.plans && obj !in d.steps && obj !in d.actions
    ensures var r := BindTx(d, obj, v);
            && (r.res.Ok? <==> (obj in d.goals || obj in d.tasks) && v in d.verifications)
            && r.db == (if r.res.Ok? then d.(required := d.required + {(obj, v)}) else d)
  {
  }

  lemma UnpassedBlocks(d: Db, obj: Id, v: Id, expected: nat, criterion: bool)
    requires (obj, v) in d.required && v in d.verifications && d.verifications[v].result != VPass
    ensures !CompleteTx(d, obj, expected, criterion).res.Ok?
  {
    hide CompleteTx, GoalMeets, TaskMeets;
    if obj in d.goals {
      GoalCompletesIff(d, obj, expected, criterion);
    } else if obj in d.tasks {
      TaskCompletesIff(d, obj, expected, criterion);
    } else {
      OnlyGoalsAndTasksComplete(d, obj, expected, criterion);
    }
  }

  // ------------------------------------------------------------------ goals, tasks, plans

  lemma LiveGoal(s: GoalStatus)
    ensures !GoalTerminal(s) <==> s in {GActive, GPaused, GBlocked}
  {
  }

  lemma LiveTask(s: TaskStatus)
    ensures !TaskTerminal(s) <==> s in {TPending, TActive, TBlocked, TPaused}
  {
  }

  /** A goal is ACTIVE, sound and at revision 0, with the policy it was given. */
  lemma NewGoal(d: Db, policy: Policy)
    requires Inv(d)
    ensures var r := Work.Apply(d, CreateGoal(policy));
            && NewRow(d.goals, r, GoalK, d.next)
            && r.db == d.(next := d.next + 1, goals := d.goals[Id(GoalK, d.next) := Goal(0, GActive, policy, Sound)])
  {
    hide Inv;
    MintedKeys(d);
  }

  /** A task, created exactly under a live goal at the expected revision, is PENDING, sound and at revision 0, points at no
      plan, and has the policy and the budget it was given. */
  lemma NewTask(d: Db, goal: Id, policy: Policy, maxAttempts: int, used: int, expected: Option<nat>)
    requires Inv(d)
    ensures var r := Work.Apply(d, CreateTask(goal, policy, maxAttempts, used, expected));
            && (r.res.Ok? <==> goal in d.goals && d.goals[goal].status in {GActive, GPaused, GBlocked}
                               && (expected.Some? ==> d.goals[goal].revision == expected.value))
            && if r.res.Ok?
               then NewRow(d.tasks, r, TaskK, d.next)
                    && r.db == d.(next := d.next + 1, tasks := d.tasks[Id(TaskK, d.next) :=
                         Task(0, goal, TPending, None, policy, maxAttempts, used, Sound)])
               else r.db == d
  {
    hide Inv;
    if goal in d.goals { LiveGoal(d.goals[goal].status); }
    MintedKeys(d);
  }

  /** A plan, created exactly for a live task, is DRAFT at revision 0, superseded by nothing, with an empty graph. */
  lemma NewPlan(d: Db, task: Id)
    requires Inv(d)
    ensures var r := Work.Apply(d, CreatePlan(task));
            && (r.res.Ok? <==> task in d.tasks && d.tasks[task].status in {TPending, TActive, TBlocked, TPaused})
            && if r.res.Ok?
               then NewRow(d.plans, r, PlanK, d.next)
                    && r.db == d.(next := d.next + 1, plans := d.plans[Id(PlanK, d.next) := Plan(0, task, PDraft, None, map[])])
               else r.db == d
  {
    hide Inv;
    if task in d.tasks { LiveTask(d.tasks[task].status); }
    MintedKeys(d);
  }

  /** Freezing commits exactly for a goal or task: FROZEN, one revision up unless it was FROZEN already, and nothing else. */
  lemma FreezingWrites(d: Db, x: Id)
    requires Inv(d)
    ensures var r := Work.Apply(d, FreezeObject(x));
            && (r.res.Ok? <==> x in d.goals || x in d.tasks)
            && r.db == (if x in d.goals && d.goals[x].integrity != Frozen
                        then d.(goals := d.goals[x := d.goals[x].(integrity := Frozen, revision := d.goals[x].revision + 1)])
                        else if x in d.tasks && d.tasks[x].integrity != Frozen
                        then d.(tasks := d.tasks[x := d.tasks[x].(integrity := Frozen, revision := d.tasks[x].revision + 1)])
                        else d)
  {
    hide Inv;
    MintedKeys(d);
  }

  // ------------------------------------------------------------------------ obligations

  /** The registry, or a task there is. */
  predicate MayOwn(d: Db, o: Owner) { o.Owned? ==> o.id in d.tasks }

  /** An obligation, created exactly for an owner that may own it, is OPEN at revision 0 and has no event. */
  lemma NewObligationRow(d: Db, origin: Id, owner: Owner)
    requires Inv(d)
    ensures var r := Obligations.Apply(d, CreateObligation(origin, owner));
            && (r.res.Ok? <==> MayOwn(d, owner))
            && if r.res.Ok?
               then NewRow(d.obligations, r, ObligationK, d.next)
                    && r.db == d.(next := d.next + 1, obligations := d.obligations[Id(ObligationK, d.next) :=
                         Obligation(origin, owner, Open, 0, [])])
               else r.db == d
  {
    hide Inv;
    MintedKeys(d);
  }

  /** A transfer moves an OPEN obligation from exactly the expected owner to another that may own it, with one event; to the
      owner it has it is a no-op, whoever was expected. */
  lemma TransferMoves(d: Db, o: Id, to: Owner, from: Owner)
    ensures var r := Obligations.Apply(d, Transfer(o, to, from));
            && (r.res.Ok? <==>
                  && o in d.obligations && d.obligations[o].disposition == Open
                  && d.obligations[o].owner == from && to != from && MayOwn(d, to))
            && (r.res == Noop <==> o in d.obligations && d.obligations[o].disposition == Open && d.obligations[o].owner == to)
            && r.db == (if r.res.Ok?
                        then var x := d.obligations[o];
                             d.(obligations := d.obligations[o := Obligation(x.origin, to, Open, x.revision + 1,
                                  x.history + [Event(EvTransferred, from, Some(to))])])
                        else d)
  {
  }

  /** Abandoning closes an OPEN obligation at the expected revision for a named human, with one event. */
  lemma AbandonCloses(d: Db, o: Id, human: bool, expected: nat)
    ensures var r := Obligations.Apply(d, Abandon(o, human, expected));
            && (r.res.Ok? <==> && human && o in d.obligations && d.obligations[o].disposition == Open
                               && d.obligations[o].revision == expected)
            && r.db == (if r.res.Ok?
                        then var x := d.obligations[o];
                             d.(obligations := d.obligations[o := Obligation(x.origin, x.owner, Abandoned, x.revision + 1,
                                  x.history + [Event(EvAbandoned, x.owner, None)])])
                        else d)
  {
  }
}
