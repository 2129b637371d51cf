/** Startup recovery (v5/recovery.py:33-65): complete, and restartable after a crash between any two iterations. */
module Recovery {
  import opened Types
  import opened Graphs
  import opened Obligations
  import opened Execution
  import opened Invariants
  import opened RowWrites
  import opened ExecutionProofs
  import opened Kernel

  /** One iteration: freeze a state/event mismatch, otherwise mark the outcome unknown. */
  function RecoverOne(d: Db, a: Id): Db
    requires a in d.actions
  {
    if Classify(d, a) == IntegrityViolation then FreezeActionTx(d, a).db
    else MarkUnknownTx(d, a, d.actions[a].revision).db
  }

  /** The iterations over a list of actions, in order. */
  function RecoverAll(d: Db, ids: seq<Id>): Db {
    if ids == [] then d
    else
      var before := RecoverAll(d, ids[..|ids| - 1]);
      var a := ids[|ids| - 1];
      if a in before.actions then RecoverOne(before, a) else before
  }

  /** The actions whose outcome becomes unknown: not mismatched, not already frozen. */
  predicate BecomesUncertain(d: Db, a: Id) {
    a in d.actions && !Observed(d, a) && d.actions[a].integrity != Frozen
  }

  /** What recovery makes of one stuck action; only the revision is left open. */
  predicate Handled(d: Db, a: Id, row: Action)
    requires a in d.actions
  {
    row == d.actions[a].(status := if BecomesUncertain(d, a) then AUnknown else AExecuting,
                         integrity := if Observed(d, a) then Frozen else d.actions[a].integrity,
                         revision := row.revision)
  }

  /** The obligation an uncertain action leaves with its task. */
  predicate UncertaintyOf(d: Db, a: Id, o: Obligation) {
    a in d.actions && OwningTask(d, d.actions[a]).Some? && o == NewObligation(a, Owned(OwningTask(d, d.actions[a]).value))
  }

  function NewFor(d: Db, d': Db, a: Id): set<Id> {
    set o | o in d'.obligations && o !in d.obligations && d'.obligations[o].origin == a
  }

  /** d' is d after the stuck actions s have been recovered. */
  predicate ActionsRecovered(d: Db, d': Db, s: set<Id>) {
    && d'.actions.Keys == d.actions.Keys
    && forall a :: a in d.actions ==> if a in s then Handled(d, a, d'.actions[a]) else d'.actions[a] == d.actions[a]
  }

  predicate ObligationsRecovered(d: Db, d': Db, s: set<Id>) {
    && (forall o :: o in d.obligations ==> o in d'.obligations && d'.obligations[o] == d.obligations[o])
    && (forall o :: o in d'.obligations && o !in d.obligations ==>
          var a := d'.obligations[o].origin;
          a in s && BecomesUncertain(d, a) && UncertaintyOf(d, a, d'.obligations[o]))
  }

  /** Exactly one new obligation for each action that became uncertain. */
  ghost predicate OneEach(d: Db, d': Db, s: set<Id>) {
    forall a :: a in s && BecomesUncertain(d, a) ==> exists o :: NewFor(d, d', a) == {o}
  }

  ghost predicate Recovered(d: Db, d': Db, s: set<Id>) {
    && d' == d.(next := d'.next, actions := d'.actions, obligations := d'.obligations)
    && ActionsRecovered(d, d', s) && ObligationsRecovered(d, d', s) && OneEach(d, d', s)
  }

  lemma NothingRecovered(d: Db)
    ensures Recovered(d, d, {})
  {
  }

  lemma RepeatedOrFrozen(d: Db, d': Db, s: set<Id>, a: Id)
    requires Recovered(d, d', s) && a in Stuck(d)
    requires a in s || (!BecomesUncertain(d, a) && !Observed(d, a))
    ensures Recovered(d, d', s + {a})
  {
    hide Observed, NewFor;
    if a in s { assert s + {a} == s; }
  }

  lemma FrozenMore(d: Db, d': Db, s: set<Id>, a: Id)
    requires Recovered(d, d', s) && a in Stuck(d) && Observed(d, a)
    ensures Recovered(d, FreezeActionTx(d', a).db, s + {a})
  {
    hide Observed, OneEach;
    OneEachKept(d, d', FreezeActionTx(d', a).db, s, a);
  }

  lemma OneEachKept(d: Db, d': Db, e: Db, s: set<Id>, a: Id)
    requires OneEach(d, d', s) && e.obligations == d'.obligations && Observed(d, a)
    ensures OneEach(d, e, s + {a})
  {
    forall x | x in s + {a} && BecomesUncertain(d, x) ensures exists o :: NewFor(d, e, x) == {o} {
      var o :| NewFor(d, d', x) == {o};
      assert NewFor(d, e, x) == {o};
    }
  }

  lemma NewForAdded(d: Db, d': Db, e: Db, id: Id, o: Obligation, x: Id)
    requires d.obligations.Keys <= d'.obligations.Keys && id !in d'.obligations && e.obligations == d'.obligations[id := o]
    ensures NewFor(d, e, x) == NewFor(d, d', x) + (if o.origin == x then {id} else {})
  {
  }

  lemma NoneNew(d: Db, d': Db, s: set<Id>, a: Id)
    requires ObligationsRecovered(d, d', s) && a !in s
    ensures NewFor(d, d', a) == {} && d.obligations.Keys <= d'.obligations.Keys
  {
    hide BecomesUncertain, UncertaintyOf;
  }

  lemma OneEachMore(d: Db, d': Db, e: Db, s: set<Id>, a: Id, id: Id, o: Obligation)
    requires OneEach(d, d', s) && a !in s && ObligationsRecovered(d, d', s)
    requires id !in d'.obligations && e.obligations == d'.obligations[id := o] && o.origin == a
    ensures OneEach(d, e, s + {a})
  {
    hide BecomesUncertain, ObligationsRecovered, NewFor;
    NoneNew(d, d', s, a);
    forall x | x in s + {a} && BecomesUncertain(d, x) ensures exists o :: NewFor(d, e, x) == {o} {
      NewForAdded(d, d', e, id, o, x);
      if x == a {
        assert NewFor(d, e, x) == {id};
      } else {
        var q :| NewFor(d, d', x) == {q};
        assert NewFor(d, e, x) == {q};
      }
    }
  }

  lemma UncertainMore(d: Db, d': Db, s: set<Id>, a: Id)
    requires Recovered(d, d', s) && Inv(d') && a in Stuck(d) && a !in s && BecomesUncertain(d, a)
    ensures Recovered(d, MarkUnknownTx(d', a, d'.actions[a].revision).db, s + {a})
  {
    hide Inv, Observed, OneEach, OwningTask, ActionsRecovered, ObligationsRecovered, MarkUnknownTx;
    var id := Id(ObligationK, d'.next);
    assert id !in d'.obligations by { MintedKeys(d'); }
    UncertainCommits(d, d', s, a);
    var e := MarkUnknownTx(d', a, d'.actions[a].revision).db;
    var o := NewObligation(a, Owned(OwningTask(d, d.actions[a]).value));
    OneEachMore(d, d', e, s, a, id, o);
    ActionMarked(d, d', e, s, a);
    ObligationMade(d, d', e, s, a, id, o);
  }

  lemma UncertainCommits(d: Db, d': Db, s: set<Id>, a: Id)
    requires Recovered(d, d', s) && Inv(d') && a in Stuck(d) && a !in s && BecomesUncertain(d, a)
    ensures a in d'.actions && d'.actions[a] == d.actions[a] && OwningTask(d, d.actions[a]).Some?
    ensures var id := Id(ObligationK, d'.next);
            var o := NewObligation(a, Owned(OwningTask(d, d.actions[a]).value));
            MarkUnknownTx(d', a, d'.actions[a].revision).db
            == Advance(d', a, AUnknown).(next := d'.next + 1, obligations := d'.obligations[id := o])
  {
    hide Inv, Observed, OneEach, OwningTask, ObligationsRecovered;
    SameOwner(d, d', d.actions[a]);
    assert OwningTask(d', d'.actions[a]).Some? by { InvHas(d', ActionsSound); OwnerKnown(d', d'.actions[a]); }
  }

  lemma ActionMarked(d: Db, d': Db, e: Db, s: set<Id>, a: Id)
    requires ActionsRecovered(d, d', s) && a in d.actions && a in d'.actions && d'.actions[a] == d.actions[a]
    requires BecomesUncertain(d, a) && e.actions == d'.actions[a := Advanced(d'.actions[a], AUnknown)]
    ensures ActionsRecovered(d, e, s + {a})
  {
    hide Observed;
  }

  lemma ObligationMade(d: Db, d': Db, e: Db, s: set<Id>, a: Id, id: Id, o: Obligation)
    requires ObligationsRecovered(d, d', s) && id !in d'.obligations && e.obligations == d'.obligations[id := o]
    requires BecomesUncertain(d, a) && UncertaintyOf(d, a, o)
    ensures ObligationsRecovered(d, e, s + {a})
  {
    hide BecomesUncertain, OwningTask;
  }

  lemma SameOwner(d: Db, d': Db, a: Action)
    requires d'.steps == d.steps && d'.plans == d.plans
    ensures OwningTask(d', a) == OwningTask(d, a)
  {
  }

  /** Handling a stuck action, again or for the first time, extends the recovered set by it. */
  lemma RecoverOneMore(d: Db, d': Db, s: set<Id>, a: Id)
    requires Recovered(d, d', s) && Inv(d') && a in Stuck(d)
    ensures a in d'.actions && Recovered(d, RecoverOne(d', a), s + {a})
  {
    hide Inv, OneEach, ObligationsRecovered, OwningTask;
    assert Observed(d', a) == Observed(d, a);
    if Observed(d, a) {
      FrozenMore(d, d', s, a);
    } else if a in s || !BecomesUncertain(d, a) {
      RepeatedOrFrozen(d, d', s, a);
    } else {
      UncertainMore(d, d', s, a);
    }
  }

  /** An action not reached yet still has the row recovery found. */
  lemma StuckRow(d: Db, d': Db, s: set<Id>, a: Id)
    requires Recovered(d, d', s) && Inv(d') && a in Stuck(d) && a !in s
    ensures a in d.actions && a in d'.actions && d'.actions[a] == d.actions[a] && d.actions[a].status == AExecuting
    ensures (Classify(d', a) == IntegrityViolation) <==> Observed(d, a)
    ensures !Observed(d, a) ==> (MarkUnknownTx(d', a, d'.actions[a].revision).res.Ok? <==> d.actions[a].integrity != Frozen)
  {
    hide Inv, OneEach, ObligationsRecovered, OwningTask;
    InvHas(d', ActionsSound);
    OwnerKnown(d', d'.actions[a]);
  }

  lemma RecoverOneKeeps(d: Db, a: Id)
    requires Inv(d) && a in d.actions
    ensures Inv(RecoverOne(d, a))
  {
    hide Inv, Evolves, Classify;
    ActionCallKeeps(d, FreezeAction(a));
    ActionCallKeeps(d, MarkUnknown(a, d.actions[a].revision));
  }

  lemma {:induction false} RecoverAllFrom(d: Db, d': Db, s: set<Id>, ids: seq<Id>)
    requires Recovered(d, d', s) && Inv(d') && Elements(ids) <= Stuck(d)
    ensures Inv(RecoverAll(d', ids)) && Recovered(d, RecoverAll(d', ids), s + Elements(ids))
    decreases |ids|
  {
    hide Inv, Recovered, RecoverOne;
    if ids == [] {
      assert s + Elements(ids) == s;
    } else {
      var rest, a := ids[..|ids| - 1], ids[|ids| - 1];
      assert Elements(ids) == Elements(rest) + {a};
      RecoverAllFrom(d, d', s, rest);
      RecoverOneMore(d, RecoverAll(d', rest), s + Elements(rest), a);
      RecoverOneKeeps(RecoverAll(d', rest), a);
      assert s + Elements(ids) == s + Elements(rest) + {a};
    }
  }

  // ----------------------------------------------------------------------- theorems

  /** Recovery over any listing of the stuck actions leaves no unfrozen EXECUTING action and changes only what
      Recovered allows: each uncertain action UNKNOWN_OUTCOME with exactly one new OPEN obligation, its task's. */
  lemma {:induction false} RecoveryComplete(d: Db, ids: seq<Id>)
    requires Inv(d) && Elements(ids) == Stuck(d)
    ensures Inv(RecoverAll(d, ids)) && Recovered(d, RecoverAll(d, ids), Stuck(d))
    ensures forall a :: a in RecoverAll(d, ids).actions && RecoverAll(d, ids).actions[a].status == AExecuting ==>
              RecoverAll(d, ids).actions[a].integrity == Frozen
  {
    hide Inv, OneEach, ObligationsRecovered;
    NothingRecovered(d);
    RecoverAllFrom(d, d, {}, ids);
    assert {} + Elements(ids) == Stuck(d);
  }

  /** f renames the obligations of a to those of b, rows unchanged. */
  predicate Renames(f: map<Id, Id>, a: map<Id, Obligation>, b: map<Id, Obligation>) {
    && f.Keys == a.Keys && f.Values == b.Keys
    && (forall o, p :: o in f && p in f && f[o] == f[p] ==> o == p)
    && (forall o :: o in f ==> f[o] in b && b[f[o]] == a[o])
  }

  predicate SameStatuses(a: map<Id, Action>, b: map<Id, Action>) {
    a.Keys == b.Keys && forall x :: x in a ==> a[x] == b[x].(revision := a[x].revision)
  }

  /** The obligation of d' that corresponds to o of another recovery of d. */
  ghost predicate Corresponds(d: Db, e: Db, e': Db, o: Id, q: Id)
    requires o in e.obligations
  {
    if o in d.obligations then q == o else NewFor(d, e', e.obligations[o].origin) == {q}
  }

  lemma Counterpart(d: Db, e: Db, e': Db, s: set<Id>, o: Id) returns (q: Id)
    requires Recovered(d, e, s) && Recovered(d, e', s) && o in e.obligations
    ensures Corresponds(d, e, e', o, q) && q in e'.obligations && e'.obligations[q] == e.obligations[o]
    ensures Corresponds(d, e', e, q, o)
  {
    hide BecomesUncertain, Handled, OwningTask;
    if o in d.obligations {
      q := o;
    } else {
      var a := e.obligations[o].origin;
      q :| NewFor(d, e', a) == {q};
      assert q in NewFor(d, e', a) && o in NewFor(d, e, a);
      var only :| NewFor(d, e, a) == {only};
    }
  }

  ghost function Renaming(d: Db, e: Db, e': Db, s: set<Id>): (f: map<Id, Id>)
    requires Recovered(d, e, s) && Recovered(d, e', s)
    ensures f.Keys == e.obligations.Keys && forall o :: o in e.obligations ==> Corresponds(d, e, e', o, f[o])
  {
    assert forall o :: o in e.obligations ==> exists q :: Corresponds(d, e, e', o, q) by {
      hide Recovered, Corresponds;
      forall o | o in e.obligations ensures exists q :: Corresponds(d, e, e', o, q) {
        var q := Counterpart(d, e, e', s, o);
      }
    }
    map o | o in e.obligations :: var q :| Corresponds(d, e, e', o, q); q
  }

  lemma CorrespondsOnce(d: Db, e: Db, e': Db, o: Id, q: Id, r: Id)
    requires o in e.obligations && Corresponds(d, e, e', o, q) && Corresponds(d, e, e', o, r)
    ensures q == r
  {
    hide NewFor;
    assert o !in d.obligations ==> q in {r};
  }

  /** Two recoveries of the same actions agree on every status and integrity and, up to fresh ids, on the obligations. */
  lemma RecoveredAgree(d: Db, e: Db, e': Db, s: set<Id>)
    requires Recovered(d, e, s) && Recovered(d, e', s)
    ensures SameStatuses(e.actions, e'.actions)
    ensures exists f :: Renames(f, e.obligations, e'.obligations)
  {
    hide Observed, ObligationsRecovered, OneEach, Corresponds;
    var f := Renaming(d, e, e', s);
    forall o | o in f ensures f[o] in e'.obligations && e'.obligations[f[o]] == e.obligations[o] && Corresponds(d, e', e, f[o], o) {
      var q := Counterpart(d, e, e', s, o);
      CorrespondsOnce(d, e, e', o, q, f[o]);
    }
    forall o, p | o in f && p in f && f[o] == f[p] ensures o == p {
      CorrespondsOnce(d, e', e, f[o], o, p);
    }
    forall q | q in e'.obligations ensures q in f.Values {
      var o := Counterpart(d, e', e, s, q);
      CorrespondsOnce(d, e, e', o, q, f[o]);
      assert f[o] == q;
    }
    assert Renames(f, e.obligations, e'.obligations);
  }

  /** A crash after any iterations, then a full rerun, ends like one uninterrupted recovery: same statuses and
      integrity, and the same obligations up to fresh ids. */
  lemma {:induction false} RecoveryRestartable(d: Db, all: seq<Id>, before: seq<Id>, rerun: seq<Id>)
    requires Inv(d) && Elements(all) == Stuck(d) && Elements(before) <= Stuck(d)
    requires Elements(rerun) == Stuck(RecoverAll(d, before))
    ensures var once, twice := RecoverAll(d, all), RecoverAll(RecoverAll(d, before), rerun);
            && SameStatuses(once.actions, twice.actions)
            && exists f :: Renames(f, once.obligations, twice.obligations)
  {
    hide Inv, OneEach, ObligationsRecovered, Renames, SameStatuses;
    NothingRecovered(d);
    RecoverAllFrom(d, d, {}, before);
    var d1 := RecoverAll(d, before);
    assert {} + Elements(before) == Elements(before);
    assert Elements(rerun) <= Stuck(d);
    RecoverAllFrom(d, d1, Elements(before), rerun);
    assert Elements(before) + Elements(rerun) == Stuck(d);
    RecoveryComplete(d, all);
    RecoveredAgree(d, RecoverAll(d, all), RecoverAll(d1, rerun), Stuck(d));
  }
}
