/** Which writes keep the stronger facts of repair-free runs, table by table. */
module StrictRows {
  import opened Types
  import opened Graphs
  import opened Obligations
  import opened Invariants
  import opened RowWrites

  ghost predicate Strictly(a: Db, b: Db) { Strict(b) && StrictEvolves(a, b) }

  lemma StrictlyTransitive(a: Db, b: Db, c: Db)
    requires Evolves(a, b) && Evolves(b, c) && Strictly(a, b) && Strictly(b, c)
    ensures Strictly(a, c)
  {
    StrictEvolvesTransitive(a, b, c);
  }

  // ------------------------------------------------------------------------- retry accounting

  predicate NoNewRetry(a: map<Id, Action>, b: map<Id, Action>) {
    forall i :: i in b && i !in a ==> b[i].retryOf.None?
  }

  lemma OwnersPermanent(a: Db, b: Db, i: Id)
    requires Inv(a) && Evolves(a, b) && i in a.actions
    ensures i in b.actions && b.actions[i].retryOf == a.actions[i].retryOf
    ensures OwningTask(b, b.actions[i]) == OwningTask(a, a.actions[i])
  {
    InvHas(a, ActionsSound);
    InvHas(a, StepsSound);
    TablesOf(a, b);
  }

  lemma RetriesKept(a: Db, b: Db, t: Id)
    requires Inv(a) && Evolves(a, b) && NoNewRetry(a.actions, b.actions)
    ensures Retries(b, t) == Retries(a, t)
  {
    hide Inv, Evolves;
    forall i ensures i in Retries(a, t) <==> i in Retries(b, t) {
      if i in a.actions { OwnersPermanent(a, b, i); }
    }
  }

  predicate BudgetsKept(a: map<Id, Task>, b: map<Id, Task>) {
    forall t :: t in a && t in b ==> b[t].attemptsUsed == a[t].attemptsUsed
  }

  lemma AccountsKept(a: Db, b: Db)
    requires Inv(a) && Evolves(a, b) && NoNewRetry(a.actions, b.actions) && BudgetsKept(a.tasks, b.tasks)
    ensures RetriesAccounted(a, b)
  {
    hide Inv, Evolves, Retries;
    forall t | t in a.tasks && t in b.tasks
      ensures b.tasks[t].attemptsUsed - a.tasks[t].attemptsUsed == |Retries(b, t)| - |Retries(a, t)|
    {
      RetriesKept(a, b, t);
    }
  }

  lemma GroundingKept(a: Db, b: Db)
    requires Evolves(a, b)
    requires ResolutionsGrounded(a.obligations, a.claims, a.evidence, a.observations)
    ensures ResolutionsGrounded(a.obligations, b.claims, b.evidence, b.observations)
  {
    TablesOf(a, b);
    hide Evolves;
    forall o | o in a.obligations && a.obligations[o].disposition == Resolved
      ensures EffectEstablished(b.claims, b.evidence, b.observations, a.obligations[o].origin)
    {
      EstablishedStays(a.claims, a.evidence, a.observations, b.claims, b.evidence, b.observations, a.obligations[o].origin);
    }
  }

  lemma EstablishedStays(c: map<ClaimKey, Claim>, e: map<Id, Evidence>, o: map<Id, Observation>,
                         c': map<ClaimKey, Claim>, e': map<Id, Evidence>, o': map<Id, Observation>, action: Id)
    requires ClaimsEvolve(c, c') && EvidenceEvolve(e, e') && ObservationsEvolve(o, o')
    requires EffectEstablished(c, e, o, action)
    ensures EffectEstablished(c', e', o', action)
  {
    var k, x :| k in c && x in c[k].basedOn && EvidenceOf(e, o, x, action);
    assert k in c' && x in c'[k].basedOn && EvidenceOf(e', o', x, action);
  }

  // ----------------------------------------------------------------------- writes, by table

  /** Goals, evidence, claims, verifications, bindings and confirmations may change. */
  lemma OuterWrite(d: Db, d': Db)
    requires Inv(d) && Strict(d) && Evolves(d, d') && GoalsForward(d.goals, d'.goals)
    requires d' == d.(next := d'.next, goals := d'.goals, evidence := d'.evidence, claims := d'.claims,
                      verifications := d'.verifications, required := d'.required, confirmations := d'.confirmations)
    ensures Strictly(d, d')
  {
    hide Inv, Evolves, Retries, Acyclic, GoalsForward, ObservationsExact, GraphMirrored, ResolutionsGrounded;
    GroundingKept(d, d');
    AccountsKept(d, d');
  }

  /** Tasks change; budgets do not. */
  lemma TaskWrite(d: Db, d': Db)
    requires Inv(d) && Strict(d) && Evolves(d, d') && d' == d.(next := d'.next, tasks := d'.tasks)
    requires TasksForward(d.tasks, d'.tasks) && BudgetsKept(d.tasks, d'.tasks) && PointerForward(d, d')
    ensures Strictly(d, d')
  {
    hide Inv, Evolves, Retries, Acyclic, TasksForward, BudgetsKept, PointerForward, ObservationsExact,
         GraphMirrored, ResolutionsGrounded;
    AccountsKept(d, d');
  }

  /** Plans and steps change together; claims, verifications and bindings may grow. */
  lemma PlanWrite(d: Db, d': Db)
    requires Inv(d) && Strict(d) && Evolves(d, d')
    requires d' == d.(next := d'.next, plans := d'.plans, steps := d'.steps, claims := d'.claims,
                      verifications := d'.verifications, required := d'.required)
    requires PlansForward(d.plans, d'.plans) && StepsForward(d.steps, d'.steps)
    requires GraphMirrored(d'.plans, d'.steps) && SupersessionOk(d'.plans)
    ensures Strictly(d, d')
  {
    hide Inv, Evolves, Retries, PlansForward, StepsForward, ObservationsExact, GraphMirrored, SupersessionOk,
         ResolutionsGrounded;
    GroundingKept(d, d');
    AccountsKept(d, d');
  }

  /** Actions and observations change together; no retry is created. */
  lemma ActionWrite(d: Db, d': Db)
    requires Inv(d) && Strict(d) && Evolves(d, d')
    requires d' == d.(next := d'.next, actions := d'.actions, observations := d'.observations)
    requires ActionsForward(d.actions, d'.actions) && NoNewRetry(d.actions, d'.actions)
    requires ObservationsExact(d'.actions, d'.observations)
    ensures Strictly(d, d')
  {
    hide Inv, Evolves, Retries, Acyclic, ActionsForward, NoNewRetry, ObservationsExact, GraphMirrored,
         ResolutionsGrounded;
    GroundingKept(d, d');
    AccountsKept(d, d');
  }

  lemma ObligationWrite(d: Db, d': Db)
    requires Inv(d) && Strict(d) && Evolves(d, d') && d' == d.(next := d'.next, obligations := d'.obligations)
    requires ObligationsForward(d.obligations, d'.obligations)
    requires ResolutionsGrounded(d'.obligations, d.claims, d.evidence, d.observations)
    ensures Strictly(d, d')
  {
    hide Inv, Evolves, Retries, Acyclic, ObligationsForward, ObservationsExact, GraphMirrored, ResolutionsGrounded;
    AccountsKept(d, d');
  }
}
