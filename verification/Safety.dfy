/** Confirmation binding (v5/safety.py). */
module Safety {
  import opened Types

  datatype SafetyCall =
    | CreateConfirmation(action: Id, actionRevision: nat, capability: string, arguments: string)
    | Confirm(confirmation: Id, now: int)

  function Apply(d: Db, c: SafetyCall): (r: Tx)
    ensures r.db == d.(next := r.db.next, confirmations := r.db.confirmations)
  {
    match c
    case CreateConfirmation(a, r, cap, args) =>
      var id := Id(ConfirmationK, d.next);
      Made(d.(next := d.next + 1, confirmations := d.confirmations[id := Confirmation(a, r, cap, args, None)]), id)
    case Confirm(id, now) =>
      if id !in d.confirmations then Reject(d, NotFound)
      else if d.confirmations[id].confirmedAt.Some? then Done(d)
      else Done(d.(confirmations := d.confirmations[id := d.confirmations[id].(confirmedAt := Some(now))]))
  }

  predicate Confirmed(d: Db, id: Id) { id in d.confirmations && d.confirmations[id].confirmedAt.Some? }

  predicate ConfirmedFor(d: Db, id: Id, action: Id) {
    Confirmed(d, id) && d.confirmations[id].actionId == action
  }

  /** The row the gate's query may return: confirmed for the action, none confirmed later. */
  predicate LatestConfirmed(d: Db, id: Id, action: Id) {
    && ConfirmedFor(d, id, action)
    && forall c :: c in d.confirmations && ConfirmedFor(d, c, action) ==>
         d.confirmations[c].confirmedAt.value <= d.confirmations[id].confirmedAt.value
  }

  /** The row was staged for exactly this revision, capability and arguments. */
  predicate Matches(c: Confirmation, a: Action) {
    c.actionRevision == a.revision && c.capability == a.capability && c.arguments == a.arguments
  }

  /** make_confirmation_gate's verdict on one action, `row` being the query's answer
      (a tie between equal confirmation times is broken by the database). */
  predicate GateOpens(d: Db, id: Id, a: Action, row: Option<Id>) {
    && row.Some?
    && LatestConfirmed(d, row.value, id)
    && Matches(d.confirmations[row.value], a)
    && (a.confirmationId.Some? && a.confirmationId != row ==>
          Confirmed(d, a.confirmationId.value) && Matches(d.confirmations[a.confirmationId.value], a))
  }
}
