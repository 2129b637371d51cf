/** The obligation ledger (v5/obligations.py): ownership, transfer, resolution. */
module Obligations {
  import opened Types

  datatype ObligationCall =
    | CreateObligation(origin: Id, owner: Owner)
    | Transfer(obligation: Id, newOwner: Owner, expectedOwner: Owner)
    | Abandon(obligation: Id, human: bool, expected: nat)
    | Resolve(obligation: Id, verification: Id, expected: nat)

  function NewObligation(origin: Id, owner: Owner): Obligation {
    Obligation(origin, owner, Open, 0, [])
  }

  /** The row after one event: owner and disposition as the event says, one revision up. */
  function AfterEvent(o: Obligation, e: Event): Obligation {
    o.(owner := if e.kind == EvTransferred && e.to.Some? then e.to.value else o.owner,
       disposition := match e.kind
                      case EvTransferred => o.disposition
                      case EvResolved => Resolved
                      case EvAbandoned => Abandoned,
       revision := o.revision + 1,
       history := o.history + [e])
  }

  function Record(d: Db, id: Id, e: Event): Db
    requires id in d.obligations
  {
    d.(obligations := d.obligations[id := AfterEvent(d.obligations[id], e)])
  }

  function TransferLocked(d: Db, id: Id, newOwner: Owner, expectedOwner: Owner): Tx {
    if id !in d.obligations then Reject(d, NotFound)
    else
      var o := d.obligations[id];
      if o.disposition != Open then Reject(d, NotOpen)
      else if o.owner == newOwner then Tx(d, Noop)
      else if o.owner != expectedOwner then Reject(d, WrongOwner)
      else if !ValidOwner(d, newOwner) then Reject(d, OwnerInvalid)
      else Done(Record(d, id, Event(EvTransferred, expectedOwner, Some(newOwner))))
  }

  function AbandonLocked(d: Db, id: Id, human: bool, expected: nat): Tx {
    if id !in d.obligations then Reject(d, NotFound)
    else
      var o := d.obligations[id];
      if !human then Reject(d, NeedsHuman)
      else if o.revision != expected then Reject(d, StaleRevision)
      else if o.disposition != Open then Reject(d, NotOpen)
      else Done(Record(d, id, Event(EvAbandoned, o.owner, None)))
  }

  /** v is the newest version of the claim. */
  predicate Newest(claims: map<ClaimKey, Claim>, id: Id, v: nat) {
    ClaimKey(id, v) in claims && forall k :: k in claims && k.id == id ==> k.version <= v
  }

  /** Evidence e derives from an Observation of the action. */
  predicate EvidenceOf(evidence: map<Id, Evidence>, observations: map<Id, Observation>, e: Id, action: Id) {
    && e in evidence
    && evidence[e].origin.Some?
    && evidence[e].origin.value in observations
    && observations[evidence[e].origin.value].actionId == action
  }

  /** _verification_concerns_obligation_locked: the newest claim version cites such evidence. */
  ghost predicate Concerns(d: Db, claim: Id, action: Id) {
    exists v, e :: Newest(d.claims, claim, v) && e in d.claims[ClaimKey(claim, v)].basedOn
      && EvidenceOf(d.evidence, d.observations, e, action)
  }

  ghost function ResolveObligation(d: Db, id: Id, verification: Id, expected: nat): Tx {
    if id !in d.obligations then Reject(d, NotFound)
    else
      var o := d.obligations[id];
      if o.revision != expected then Reject(d, StaleRevision)
      else if o.disposition != Open then Reject(d, NotOpen)
      else if verification !in d.verifications || d.verifications[verification].result != VPass then Reject(d, NotOpen)
      else if !Concerns(d, d.verifications[verification].verifies, o.origin) then Reject(d, ResolutionProvenance)
      else Done(Record(d, id, Event(EvResolved, o.owner, None)))
  }

  ghost function Apply(d: Db, c: ObligationCall): (r: Tx)
    ensures r.db == d.(next := r.db.next, obligations := r.db.obligations)
  {
    match c
    case CreateObligation(origin, owner) =>
      if !ValidOwner(d, owner) then Reject(d, OwnerInvalid)
      else
        var id := Id(ObligationK, d.next);
        Made(d.(next := d.next + 1, obligations := d.obligations[id := NewObligation(origin, owner)]), id)
    case Transfer(o, newOwner, expectedOwner) => TransferLocked(d, o, newOwner, expectedOwner)
    case Abandon(o, human, expected) => AbandonLocked(d, o, human, expected)
    case Resolve(o, v, expected) => ResolveObligation(d, o, v, expected)
  }

  // ----------------------------------------------------------- the subtree scan

  function OwnedOpen(d: Db, obj: Id): set<Id> {
    set o | o in d.obligations && d.obligations[o].disposition == Open && d.obligations[o].owner == Owned(obj)
  }

  predicate OwnerUnderGoal(d: Db, o: Owner, goal: Id) {
    o.Owned? && o.id in d.tasks && d.tasks[o.id].goalId == goal
  }

  /** open_obligations_in_subtree_locked: direct owner first, the goal join only when that finds nothing. */
  function Subtree(d: Db, obj: Id): set<Id> {
    var direct := OwnedOpen(d, obj);
    if direct != {} then direct
    else set o | o in d.obligations && d.obligations[o].disposition == Open
                 && OwnerUnderGoal(d, d.obligations[o].owner, obj)
  }

  function ToUor(o: Obligation): Obligation {
    AfterEvent(o, Event(EvTransferred, o.owner, Some(Uor)))
  }

  /** Every obligation of s handed to the registry, all others untouched. */
  function MovedToUor(d: Db, s: set<Id>): (r: Db)
    ensures r == d.(obligations := r.obligations)
  {
    d.(obligations := map o | o in d.obligations ::
      if o in s then ToUor(d.obligations[o]) else d.obligations[o])
  }

  function MoveSubtree(d: Db, obj: Id): (r: Db)
    ensures r == d.(obligations := r.obligations)
  {
    MovedToUor(d, Subtree(d, obj))
  }

  /** The law behind "the loop ignores rejections": a transfer of one more open obligation to the registry neither
      rejects nor no-ops, and extends the moved set by it. */
  lemma MoveOneMore(d: Db, s: set<Id>, o: Id)
    requires o in d.obligations && o !in s
    requires d.obligations[o].disposition == Open && d.obligations[o].owner.Owned?
    ensures TransferLocked(MovedToUor(d, s), o, Uor, d.obligations[o].owner) == Done(MovedToUor(d, s + {o}))
  {
    var m := MovedToUor(d, s);
    assert m.obligations[o := ToUor(d.obligations[o])] == MovedToUor(d, s + {o}).obligations;
  }
}
