/** What opens the confirmation gate (v5/safety.py): exactly a confirmed row staged for what is about to run. */
module Confirming {
  import opened Types
  import opened Safety
  import opened Execution
  import opened Invariants
  import opened RowWrites

  /** The row speaks of action x as it stands: same revision, capability and arguments. */
  predicate Describes(c: Confirmation, x: Action) {
    c.actionRevision == x.revision && c.capability == x.capability && c.arguments == x.arguments
  }

  /** No confirmed row of the action is later than `now`. */
  predicate NoneLater(d: Db, a: Id, now: int) {
    forall k :: k in d.confirmations && d.confirmations[k].actionId == a && d.confirmations[k].confirmedAt.Some? ==>
      d.confirmations[k].confirmedAt.value <= now
  }

  /** row answers for action a: confirmed, for a as it stands, no confirmed row of a being later; and a row the action is
      bound to, when it is another one, is confirmed for the same. */
  predicate Answers(d: Db, a: Id, row: Option<Id>)
    requires a in d.actions
  {
    && row.Some? && row.value in d.confirmations
    && var c, x := d.confirmations[row.value], d.actions[a];
    && c.confirmedAt.Some? && c.actionId == a && Describes(c, x)
    && NoneLater(d, a, c.confirmedAt.value)
    && (x.confirmationId.Some? && x.confirmationId != row ==>
          && x.confirmationId.value in d.confirmations
          && d.confirmations[x.confirmationId.value].confirmedAt.Some?
          && Describes(d.confirmations[x.confirmationId.value], x))
  }

  /** What the gate's query may answer: a confirmed row of the action none of whose confirmed rows is later, or nothing when
      it has none. */
  predicate QueryAnswer(d: Db, a: Id, row: Option<Id>) {
    if row.Some?
    then && row.value in d.confirmations && d.confirmations[row.value].actionId == a
         && d.confirmations[row.value].confirmedAt.Some? && NoneLater(d, a, d.confirmations[row.value].confirmedAt.value)
    else forall k :: k in d.confirmations && d.confirmations[k].actionId == a ==> d.confirmations[k].confirmedAt.None?
  }

  /** The gate begin_executing was run with: none without a safety check, otherwise with the query's answer when a
      confirmation is required. */
  predicate Queried(d: Db, a: Id, confirm: Option<bool>, gate: Gate) {
    match confirm
    case None => gate == NoGate
    case Some(required) =>
      gate.ConfirmationGate? && gate.required == required && (required ==> QueryAnswer(d, a, gate.row))
  }

  lemma GateAnswers(d: Db, a: Id, row: Option<Id>)
    requires a in d.actions
    ensures GateOpens(d, a, d.actions[a], row) <==> Answers(d, a, row)
  {
  }

  /** Staging commits always and writes one unconfirmed row under an unused id, with the four values it was given. */
  lemma StagedRow(d: Db, a: Id, revision: nat, capability: string, arguments: string)
    requires Inv(d)
    ensures var r, c := Safety.Apply(d, CreateConfirmation(a, revision, capability, arguments)), Id(ConfirmationK, d.next);
            && r.res == Ok(Some(c), 0) && c !in d.confirmations
            && r.db == d.(next := d.next + 1,
                          confirmations := d.confirmations[c := Confirmation(a, revision, capability, arguments, None)])
  {
    hide Inv;
    MintedKeys(d);
  }

  /** Confirming commits exactly for a known row; the time is written once, and nothing else ever. */
  lemma ConfirmedRow(d: Db, c: Id, now: int)
    ensures var r := Safety.Apply(d, Confirm(c, now));
            && (r.res.Ok? <==> c in d.confirmations)
            && r.db == if c in d.confirmations && d.confirmations[c].confirmedAt.None?
                       then d.(confirmations := d.confirmations[c := d.confirmations[c].(confirmedAt := Some(now))])
                       else d
  {
  }

  /** The store after staging a row and confirming it at `now`. */
  function StagedAndConfirmed(d: Db, a: Id, revision: nat, capability: string, arguments: string, now: int): Db {
    Safety.Apply(Safety.Apply(d, CreateConfirmation(a, revision, capability, arguments)).db,
                 Confirm(Id(ConfirmationK, d.next), now)).db
  }

  /** The confirmation protocol from end to end: a row staged for (revision, capability, arguments) and confirmed at `now`
      lets the action start under a required gate if and only if the action is PENDING, unfrozen and at the expected
      revision, the row was staged for exactly its revision, capability and arguments, no confirmed row of it is later,
      and the row the action is bound to, when it is another, is confirmed for the same. Before it is confirmed the row
      lets nothing start. */
  lemma ConfirmedRowOpensGate(d: Db, a: Id, expected: nat, revision: nat, capability: string, arguments: string, now: int)
    requires Inv(d)
    ensures var row := Some(Id(ConfirmationK, d.next));
            var staged := Safety.Apply(d, CreateConfirmation(a, revision, capability, arguments)).db;
            !Execution.Apply(staged, Begin(a, expected, None, ConfirmationGate(true, row))).res.Ok?
    ensures var row := Some(Id(ConfirmationK, d.next));
            Execution.Apply(StagedAndConfirmed(d, a, revision, capability, arguments, now),
                            Begin(a, expected, None, ConfirmationGate(true, row))).res.Ok?
            <==> && a in d.actions && d.actions[a].revision == expected
                 && d.actions[a].integrity != Frozen && d.actions[a].status == APending
                 && revision == expected && capability == d.actions[a].capability && arguments == d.actions[a].arguments
                 && NoneLater(d, a, now)
                 && (d.actions[a].confirmationId.Some? && d.actions[a].confirmationId != row ==>
                       BoundRowAgrees(d, d.actions[a]))
  {
    hide Inv, Safety.Apply, GateOpens, Answers;
    StagedRow(d, a, revision, capability, arguments);
    var c := Id(ConfirmationK, d.next);
    var staged := Safety.Apply(d, CreateConfirmation(a, revision, capability, arguments)).db;
    ConfirmedRow(staged, c, now);
    var confirmed := StagedAndConfirmed(d, a, revision, capability, arguments, now);
    if a in d.actions {
      GateAnswers(staged, a, Some(c));
      GateAnswers(confirmed, a, Some(c));
      StagedAnswers(d, staged, a, c, Confirmation(a, revision, capability, arguments, None));
      StagedAnswers(d, confirmed, a, c, Confirmation(a, revision, capability, arguments, Some(now)));
    }
  }

  /** The row the action is bound to is confirmed for it as it stands. */
  predicate BoundRowAgrees(d: Db, x: Action) {
    && x.confirmationId.Some? && x.confirmationId.value in d.confirmations
    && d.confirmations[x.confirmationId.value].confirmedAt.Some?
    && Describes(d.confirmations[x.confirmationId.value], x)
  }

  lemma StagedAnswers(d: Db, d': Db, a: Id, c: Id, row: Confirmation)
    requires a in d.actions && d'.actions == d.actions && c !in d.confirmations && row.actionId == a
    requires d'.confirmations == d.confirmations[c := row]
    ensures Answers(d', a, Some(c)) <==>
              && row.confirmedAt.Some? && Describes(row, d.actions[a])
              && NoneLater(d, a, row.confirmedAt.value)
              && (d.actions[a].confirmationId.Some? && d.actions[a].confirmationId != Some(c) ==> BoundRowAgrees(d, d.actions[a]))
  {
    if Answers(d', a, Some(c)) {
      forall k | k in d.confirmations && d.confirmations[k].actionId == a && d.confirmations[k].confirmedAt.Some?
        ensures d.confirmations[k].confirmedAt.value <= row.confirmedAt.value
      {
        assert d'.confirmations[k] == d.confirmations[k];
      }
    }
  }
}
