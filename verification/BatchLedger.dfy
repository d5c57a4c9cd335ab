// The batch-submission ledger: atomic specification and the bounded in-memory implementation.
module BatchLedger {
  import opened Common

  datatype Reference = Reference(scope: string, catalogId: string, runKey: string)

  type Receipt = string

  datatype Entry = Pending | Submitted(receipt: Receipt)

  type Ledger = map<Reference, Entry>

  datatype Reservation = Reserved | StillPending | AlreadySubmitted(receipt: Receipt)

  datatype LedgerError = CapacityExhausted | MissingReservation | ConflictingReceipt

  // reserve, as one indivisible operation.
  function AtomicReserve(ledger: Ledger, capacity: nat, r: Reference): (Ledger, Result<Reservation, LedgerError>) {
    if r in ledger then
      (ledger, Ok(if ledger[r].Pending? then StillPending else AlreadySubmitted(ledger[r].receipt)))
    else if |ledger| == capacity then (ledger, Err(CapacityExhausted))
    else (ledger[r := Pending], Ok(Reserved))
  }

  // record_submission, as one indivisible operation.
  function AtomicRecord(ledger: Ledger, r: Reference, receipt: Receipt): (Ledger, Result<(), LedgerError>) {
    if r !in ledger then (ledger, Err(MissingReservation))
    else if ledger[r].Pending? then (ledger[r := Submitted(receipt)], Ok(()))
    else if ledger[r].receipt == receipt then (ledger, Ok(()))
    else (ledger, Err(ConflictingReceipt))
  }

  // One entry's life: absent, then pending, then submitted with one receipt for good.
  function Stage(ledger: Ledger, r: Reference): nat {
    if r !in ledger then 0 else if ledger[r].Pending? then 1 else 2
  }

  // No entry goes back, and a receipt once recorded stays.
  ghost predicate Advances(before: Ledger, after: Ledger) {
    forall r :: r in before ==>
      r in after && (before[r].Submitted? ==> after[r] == before[r])
  }

  // One operation moves at most one entry, by at most one stage, and keeps the ledger within capacity.
  ghost predicate OneMove(before: Ledger, after: Ledger, r: Reference, capacity: nat) {
    && Advances(before, after)
    && Stage(before, r) <= Stage(after, r) <= Stage(before, r) + 1
    && (forall q :: q != r ==> Stage(after, q) == Stage(before, q) && (q in before ==> after[q] == before[q]))
    && (|before| <= capacity ==> |after| <= capacity)
  }

  lemma ReserveMoves(ledger: Ledger, capacity: nat, r: Reference)
    ensures OneMove(ledger, AtomicReserve(ledger, capacity, r).0, r, capacity)
    ensures AtomicReserve(ledger, capacity, r).1 == Ok(Reserved) <==>
              Stage(ledger, r) == 0 && Stage(AtomicReserve(ledger, capacity, r).0, r) == 1
    ensures AtomicReserve(ledger, capacity, r).1 == Err(CapacityExhausted) <==> r !in ledger && |ledger| == capacity
  {
    if r !in ledger {
      assert ledger[r := Pending].Keys == ledger.Keys + {r};
    }
  }

  lemma RecordMoves(ledger: Ledger, capacity: nat, r: Reference, receipt: Receipt)
    ensures OneMove(ledger, AtomicRecord(ledger, r, receipt).0, r, capacity)
    ensures AtomicRecord(ledger, r, receipt).1.Ok? <==>
              && AtomicRecord(ledger, r, receipt).0.Keys == ledger.Keys && r in ledger
              && AtomicRecord(ledger, r, receipt).0[r] == Submitted(receipt)
  {
    var after := AtomicRecord(ledger, r, receipt).0;
    assert after.Keys == ledger.Keys;
  }

  // InMemoryAiBatchLedger: each method body is one section under the mutex.
  class InMemoryBatchLedger {
    var state: Ledger
    const capacity: nat

    predicate Valid() reads this {
      |state| <= capacity
    }

    // InMemoryAiBatchLedger::new; None is InvalidInMemoryCapacity.
    static method New(capacity: nat) returns (ledger: Option<InMemoryBatchLedger>)
      ensures ledger.Some? <==> 1 <= capacity <= 10000
      ensures ledger.Some? ==>
                && fresh(ledger.value) && ledger.value.Valid()
                && ledger.value.capacity == capacity && ledger.value.state == map[]
    {
      if !(1 <= capacity <= 10000) { return None; }
      var created := new InMemoryBatchLedger(capacity);
      return Some(created);
    }

    constructor (capacity: nat)
      ensures Valid() && this.capacity == capacity && state == map[]
    {
      this.capacity := capacity;
      state := map[];
    }

    method Reserve(reference: Reference) returns (outcome: Result<Reservation, LedgerError>)
      requires Valid()
      modifies this
      ensures Valid() && (state, outcome) == AtomicReserve(old(state), capacity, reference)
      ensures OneMove(old(state), state, reference, capacity)
    {
      ReserveMoves(state, capacity, reference);
      if reference in state {
        match state[reference]
        case Pending => return Ok(StillPending);
        case Submitted(receipt) => return Ok(AlreadySubmitted(receipt));
      }
      if |state| == capacity { return Err(CapacityExhausted); }
      state := state[reference := Pending];
      return Ok(Reserved);
    }

    method RecordSubmission(reference: Reference, receipt: Receipt) returns (result: Result<(), LedgerError>)
      requires Valid()
      modifies this
      ensures Valid() && (state, result) == AtomicRecord(old(state), reference, receipt)
      ensures OneMove(old(state), state, reference, capacity)
    {
      RecordMoves(state, capacity, reference, receipt);
      if reference !in state { return Err(MissingReservation); }
      match state[reference]
      case Pending =>
        state := state[reference := Submitted(receipt)];
        return Ok(());
      case Submitted(existing) =>
        if existing == receipt { return Ok(()); }
        return Err(ConflictingReceipt);
    }
  }
}
