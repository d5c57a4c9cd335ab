// The evaluation-run ledger: the atomic specification keyed by (scope, run_key), and the bounded
// in-memory implementation of it.
module EvaluationLedger {
  import opened Common

  datatype Reference = Reference(scope: string, catalogId: string, runKey: string)

  type Key = (string, string)

  function KeyOf(r: Reference): Key {
    (r.scope, r.runKey)
  }

  datatype Status = Pending | Completed

  datatype RunState = RunState(catalogId: string, status: Status)

  type Ledger = map<Key, RunState>

  datatype Reservation = Reserved | AlreadyCompleted | StillPending

  datatype LedgerError = CapacityExhausted | IdentityConflict | MissingReservation | InvalidMetadata

  datatype Answer =
    | ReserveAnswer(outcome: Result<Reservation, LedgerError>)
    | RecordAnswer(result: Result<(), LedgerError>)

  datatype Operation = Reserve(reference: Reference) | Record(reference: Reference)

  // What one indivisible ledger operation answers and leaves behind. `limit` is the in-memory
  // capacity; a durable ledger has none.
  function Atomic(ledger: Ledger, limit: Option<nat>, op: Operation): (Ledger, Answer) {
    var key := KeyOf(op.reference);
    var found := key in ledger;
    if found && ledger[key].catalogId != op.reference.catalogId then
      (ledger, if op.Reserve? then ReserveAnswer(Err(IdentityConflict)) else RecordAnswer(Err(IdentityConflict)))
    else match op
      case Reserve(r) =>
        if found then
          (ledger, ReserveAnswer(Ok(if ledger[key].status == Pending then StillPending else AlreadyCompleted)))
        else if limit.Some? && |ledger| == limit.value then (ledger, ReserveAnswer(Err(CapacityExhausted)))
        else (ledger[key := RunState(r.catalogId, Pending)], ReserveAnswer(Ok(Reserved)))
      case Record(r) =>
        if found then (ledger[key := RunState(r.catalogId, Completed)], RecordAnswer(Ok(())))
        else (ledger, RecordAnswer(Err(MissingReservation)))
  }

  // Entries are never removed, keep their catalog identity, and only move from pending to completed.
  ghost predicate Advances(before: Ledger, after: Ledger) {
    forall k :: k in before ==>
      && k in after
      && after[k].catalogId == before[k].catalogId
      && (before[k].status == Completed ==> after[k].status == Completed)
  }

  lemma AtomicAdvances(ledger: Ledger, limit: Option<nat>, op: Operation)
    ensures Advances(ledger, Atomic(ledger, limit, op).0)
    ensures forall k :: k != KeyOf(op.reference) ==>
              (k in Atomic(ledger, limit, op).0 <==> k in ledger)
              && (k in ledger ==> Atomic(ledger, limit, op).0[k] == ledger[k])
  {
  }

  lemma AdvancesTransitive(a: Ledger, b: Ledger, c: Ledger)
    requires Advances(a, b) && Advances(b, c)
    ensures Advances(a, c)
  {
  }

  // InMemoryAiEvaluationRunLedger: each method body is one section under the mutex.
  class InMemoryRunLedger {
    var state: Ledger
    const capacity: nat

    // InMemoryAiEvaluationRunLedger::new; None is InvalidInMemoryCapacity.
    static method New(capacity: nat) returns (ledger: Option<InMemoryRunLedger>)
      ensures ledger.Some? <==> 1 <= capacity <= 10000
      ensures ledger.Some? ==> fresh(ledger.value) && ledger.value.capacity == capacity && ledger.value.state == map[]
    {
      if !(1 <= capacity <= 10000) { return None; }
      var created := new InMemoryRunLedger(capacity);
      return Some(created);
    }

    constructor (capacity: nat)
      ensures this.capacity == capacity && state == map[]
    {
      this.capacity := capacity;
      state := map[];
    }

    method Reserve(reference: Reference) returns (outcome: Result<Reservation, LedgerError>)
      requires |state| <= capacity
      modifies this
      ensures (state, ReserveAnswer(outcome)) == Atomic(old(state), Some(capacity), Operation.Reserve(reference))
      ensures |state| <= capacity && Advances(old(state), state)
    {
      var key := KeyOf(reference);
      if key in state {
        if state[key].catalogId != reference.catalogId { return Err(IdentityConflict); }
        if state[key].status == Pending { return Ok(StillPending); }
        return Ok(AlreadyCompleted);
      }
      if |state| == capacity { return Err(CapacityExhausted); }
      state := state[key := RunState(reference.catalogId, Pending)];
      return Ok(Reserved);
    }

    method RecordCompleted(reference: Reference) returns (result: Result<(), LedgerError>)
      requires |state| <= capacity
      modifies this
      ensures (state, RecordAnswer(result)) == Atomic(old(state), Some(capacity), Record(reference))
      ensures |state| <= capacity && Advances(old(state), state)
    {
      var key := KeyOf(reference);
      if key !in state { return Err(MissingReservation); }
      if state[key].catalogId != reference.catalogId { return Err(IdentityConflict); }
      assert state.Keys == state[key := RunState(reference.catalogId, Completed)].Keys;
      state := state[key := state[key].(status := Completed)];
      return Ok(());
    }
  }
}
