// AiBatchSubmitter::submit over one shared ledger.
//
// Any number of calls run at once and a redelivery is just another call. Every ledger operation is
// one atomic step; it may take effect and still report a failure. Catalog and provider may fail, a
// call may crash after any step, and an outside reconciler may record receipts.
module BatchSubmission {
  import opened Common
  import opened BatchLedger

  datatype Disposition = NewSubmission | ExistingSubmission

  datatype SubmitError =
    | LedgerReserveFailed | StillPendingElsewhere | CatalogFailed | ProviderFailed
    | LedgerRecordFailed(receipt: Receipt)

  datatype Pc =
    | Reserving
    | Loading
    | Submitting
    | Recording(receipt: Receipt)
    | Returned(result: Result<(Receipt, Disposition), SubmitError>)
    | Crashed

  datatype Call = Call(reference: Reference, pc: Pc)

  // History: `owners` says which call's reservation created an entry, `loads` and `submissions` list
  // the calls that loaded the catalog and called the provider, and `offered` holds the receipts that
  // the provider or the reconciler produced.
  datatype World = World(
    ledger: Ledger, capacity: nat, calls: seq<Call>, owners: map<Reference, nat>,
    loads: seq<nat>, submissions: seq<nat>, offered: set<(Reference, Receipt)>)

  function Start(capacity: nat): World {
    World(map[], capacity, [], map[], [], [], {})
  }

  datatype Step =
    | Begin(reference: Reference)
    | ReserveStep(call: nat, delivered: bool)
    | LoadStep(call: nat, success: bool)
    | SubmitStep(call: nat, answer: Option<Receipt>)
    | RecordStep(call: nat, delivered: bool)
    | CrashStep(call: nat)
    | Reconcile(reference: Reference, receipt: Receipt)

  predicate Enabled(w: World, s: Step) {
    match s
    case Begin(_) => true
    case Reconcile(_, _) => true
    case _ =>
      && s.call < |w.calls|
      && var pc := w.calls[s.call].pc;
         match s
         case ReserveStep(_, _) => pc.Reserving?
         case LoadStep(_, _) => pc.Loading?
         case SubmitStep(_, _) => pc.Submitting?
         case RecordStep(_, _) => pc.Recording?
         case _ => !pc.Returned?
  }

  function Goto(w: World, c: nat, pc: Pc): World
    requires c < |w.calls|
  {
    w.(calls := w.calls[c := w.calls[c].(pc := pc)])
  }

  // What submit does with the reply of reserve.
  function AfterReserve(reply: Result<Reservation, LedgerError>): Pc {
    match reply
    case Err(_) => Returned(Err(LedgerReserveFailed))
    case Ok(Reserved) => Loading
    case Ok(StillPending) => Returned(Err(StillPendingElsewhere))
    case Ok(AlreadySubmitted(receipt)) => Returned(Ok((receipt, ExistingSubmission)))
  }

  function AfterRecord(reply: Result<(), LedgerError>, receipt: Receipt): Pc {
    if reply.Ok? then Returned(Ok((receipt, NewSubmission))) else Returned(Err(LedgerRecordFailed(receipt)))
  }

  function Apply(w: World, s: Step): World
    requires Enabled(w, s)
  {
    match s
    case Begin(r) => w.(calls := w.calls + [Call(r, Reserving)])
    case ReserveStep(c, delivered) =>
      var r := w.calls[c].reference;
      var (ledger, reply) := AtomicReserve(w.ledger, w.capacity, r);
      Goto(w.(ledger := ledger, owners := if reply == Ok(Reserved) then w.owners[r := c] else w.owners), c,
           if delivered then AfterReserve(reply) else Returned(Err(LedgerReserveFailed)))
    case LoadStep(c, success) =>
      Goto(w.(loads := w.loads + [c]), c, if success then Submitting else Returned(Err(CatalogFailed)))
    case SubmitStep(c, answer) =>
      Goto(w.(submissions := w.submissions + [c],
              offered := if answer.Some? then w.offered + {(w.calls[c].reference, answer.value)} else w.offered), c,
           if answer.Some? then Recording(answer.value) else Returned(Err(ProviderFailed)))
    case RecordStep(c, delivered) =>
      var receipt := w.calls[c].pc.receipt;
      var (ledger, reply) := AtomicRecord(w.ledger, w.calls[c].reference, receipt);
      Goto(w.(ledger := ledger), c,
           if delivered then AfterRecord(reply, receipt) else Returned(Err(LedgerRecordFailed(receipt))))
    case CrashStep(c) => Goto(w, c, Crashed)
    case Reconcile(r, receipt) =>
      w.(ledger := AtomicRecord(w.ledger, r, receipt).0, offered := w.offered + {(r, receipt)})
  }

  ghost predicate Runs(w: World, steps: seq<Step>, end: World)
    decreases |steps|
  {
    if steps == [] then w == end
    else Enabled(w, steps[0]) && Runs(Apply(w, steps[0]), steps[1..], end)
  }

  // ---- the invariant ----

  // How far a call has come: 0 before its reservation, 1 before the load, 2 before the provider call.
  function Progress(pc: Pc): nat {
    match pc
    case Reserving => 0
    case Loading => 1
    case Submitting => 2
    case _ => 3
  }

  // The calls in `work` are past their stage, each owns its reference, and none appears twice.
  ghost predicate WorkOk(w: World, work: seq<nat>, stage: nat) {
    && (forall i :: 0 <= i < |work| ==> Worked(w, work[i], stage))
    && forall i, j :: 0 <= i < j < |work| ==> work[i] != work[j]
  }

  ghost predicate Worked(w: World, c: nat, stage: nat) {
    c < |w.calls| && Progress(w.calls[c].pc) > stage && Owns(w, c)
  }

  ghost predicate Owns(w: World, c: nat)
    requires c < |w.calls|
  {
    w.calls[c].reference in w.owners && w.owners[w.calls[c].reference] == c
  }

  ghost predicate CallInv(w: World, c: nat)
    requires c < |w.calls|
  {
    CallOk(w, w.calls[c]) && (Progress(w.calls[c].pc) in {1, 2} || w.calls[c].pc.Recording? ==> Owns(w, c))
  }

  // A receipt being recorded was offered, and one that was returned is in the ledger.
  ghost predicate CallOk(w: World, call: Call) {
    && (call.pc.Recording? ==> (call.reference, call.pc.receipt) in w.offered)
    && (call.pc.Returned? && call.pc.result.Ok? ==>
          call.reference in w.ledger && w.ledger[call.reference] == Submitted(call.pc.result.value.0))
  }

  ghost predicate LedgerOk(ledger: Ledger, capacity: nat, owners: map<Reference, nat>,
                           offered: set<(Reference, Receipt)>) {
    && |ledger| <= capacity
    && owners.Keys == ledger.Keys
    && forall r :: r in ledger && ledger[r].Submitted? ==> (r, ledger[r].receipt) in offered
  }

  ghost predicate Inv(w: World) {
    && LedgerOk(w.ledger, w.capacity, w.owners, w.offered)
    && (forall c :: 0 <= c < |w.calls| ==> CallInv(w, c))
    && WorkOk(w, w.loads, 1)
    && WorkOk(w, w.submissions, 2)
  }

  // What every step leaves behind: no entry, owner or offered receipt is lost and no call moves back.
  ghost predicate Extends(w: World, w': World) {
    && w'.capacity == w.capacity
    && Advances(w.ledger, w'.ledger)
    && (forall r :: r in w.owners ==> r in w'.owners && w'.owners[r] == w.owners[r])
    && w.offered <= w'.offered
    && |w.calls| <= |w'.calls|
    && (forall c :: 0 <= c < |w.calls| ==>
          w'.calls[c].reference == w.calls[c].reference && Progress(w.calls[c].pc) <= Progress(w'.calls[c].pc))
    && w.loads <= w'.loads && w.submissions <= w'.submissions
  }

  // The reference whose entry a step may touch.
  function Touched(w: World, s: Step): Reference
    requires Enabled(w, s)
  {
    match s
    case Begin(r) => r
    case Reconcile(r, _) => r
    case _ => w.calls[s.call].reference
  }

  // One step moves at most one entry, by at most one stage.
  lemma StepMovesOneEntry(w: World, s: Step)
    requires Enabled(w, s)
    ensures OneMove(w.ledger, Apply(w, s).ledger, Touched(w, s), w.capacity)
  {
    match s
    case ReserveStep(c, _) => ReserveMoves(w.ledger, w.capacity, w.calls[c].reference);
    case RecordStep(c, _) => RecordMoves(w.ledger, w.capacity, w.calls[c].reference, w.calls[c].pc.receipt);
    case Reconcile(r, receipt) => RecordMoves(w.ledger, w.capacity, r, receipt);
    case _ =>
  }

  // No call moves back, and only the stepping call moves.
  lemma CallsExtend(w: World, s: Step)
    requires Enabled(w, s)
    ensures |w.calls| <= |Apply(w, s).calls|
    ensures forall c :: 0 <= c < |w.calls| ==>
              && Apply(w, s).calls[c].reference == w.calls[c].reference
              && Progress(w.calls[c].pc) <= Progress(Apply(w, s).calls[c].pc)
              && (s.Begin? || s.Reconcile? || s.call != c ==> Apply(w, s).calls[c] == w.calls[c])
  {
  }

  lemma StepExtends(w: World, s: Step)
    requires Inv(w) && Enabled(w, s)
    ensures Extends(w, Apply(w, s))
  {
    StepMovesOneEntry(w, s);
    CallsExtend(w, s);
  }

  lemma WorkExtends(w: World, w': World, work: seq<nat>, stage: nat)
    requires Extends(w, w') && WorkOk(w, work, stage)
    ensures WorkOk(w', work, stage)
  {
    forall i | 0 <= i < |work| ensures Worked(w', work[i], stage) {
      assert Worked(w, work[i], stage);
    }
  }

  lemma WorkGrows(w: World, w': World, work: seq<nat>, c: nat, stage: nat)
    requires Extends(w, w') && WorkOk(w, work, stage)
    requires c < |w.calls| && Progress(w.calls[c].pc) == stage && Worked(w', c, stage)
    ensures WorkOk(w', work + [c], stage)
  {
    WorkExtends(w, w', work, stage);
    forall i | 0 <= i < |work| ensures work[i] != c { assert Worked(w, work[i], stage); }
  }

  lemma WorkKeeps(w: World, s: Step)
    requires Inv(w) && Enabled(w, s)
    ensures WorkOk(Apply(w, s), Apply(w, s).loads, 1) && WorkOk(Apply(w, s), Apply(w, s).submissions, 2)
  {
    var w' := Apply(w, s);
    StepExtends(w, s);
    if s.LoadStep? {
      assert CallInv(w, s.call);
      WorkGrows(w, w', w.loads, s.call, 1);
    } else {
      WorkExtends(w, w', w.loads, 1);
    }
    if s.SubmitStep? {
      assert CallInv(w, s.call);
      WorkGrows(w, w', w.submissions, s.call, 2);
    } else {
      WorkExtends(w, w', w.submissions, 2);
    }
  }

  lemma ReserveKeeps(ledger: Ledger, capacity: nat, owners: map<Reference, nat>, offered: set<(Reference, Receipt)>,
                     r: Reference, c: nat)
    requires LedgerOk(ledger, capacity, owners, offered)
    ensures LedgerOk(AtomicReserve(ledger, capacity, r).0, capacity,
                     if AtomicReserve(ledger, capacity, r).1 == Ok(Reserved) then owners[r := c] else owners, offered)
  {
    ReserveMoves(ledger, capacity, r);
  }

  lemma RecordKeeps(ledger: Ledger, capacity: nat, owners: map<Reference, nat>, offered: set<(Reference, Receipt)>,
                    r: Reference, receipt: Receipt)
    requires LedgerOk(ledger, capacity, owners, offered)
    ensures LedgerOk(AtomicRecord(ledger, r, receipt).0, capacity, owners, offered + {(r, receipt)})
  {
    RecordMoves(ledger, capacity, r, receipt);
  }

  lemma LedgerKeeps(w: World, s: Step)
    requires Inv(w) && Enabled(w, s)
    ensures var w' := Apply(w, s); LedgerOk(w'.ledger, w.capacity, w'.owners, w'.offered)
  {
    match s
    case ReserveStep(c, _) => ReserveKeeps(w.ledger, w.capacity, w.owners, w.offered, w.calls[c].reference, c);
    case RecordStep(c, _) =>
      var call := w.calls[c];
      RecordKeeps(w.ledger, w.capacity, w.owners, w.offered, call.reference, call.pc.receipt);
      assert CallInv(w, c);
      assert w.offered + {(call.reference, call.pc.receipt)} == w.offered;
    case Reconcile(r, receipt) => RecordKeeps(w.ledger, w.capacity, w.owners, w.offered, r, receipt);
    case _ =>
  }

  lemma CallsKeep(w: World, s: Step)
    requires Inv(w) && Enabled(w, s)
    ensures forall c :: 0 <= c < |Apply(w, s).calls| ==> CallInv(Apply(w, s), c)
  {
    var w' := Apply(w, s);
    StepExtends(w, s);
    forall c | 0 <= c < |w'.calls| ensures CallInv(w', c) {
      if c < |w.calls| {
        assert CallInv(w, c);
        CallsExtend(w, s);
      }
    }
  }

  lemma StepKeepsInv(w: World, s: Step)
    requires Inv(w) && Enabled(w, s)
    ensures Inv(Apply(w, s)) && Extends(w, Apply(w, s))
  {
    StepExtends(w, s);
    WorkKeeps(w, s);
    LedgerKeeps(w, s);
    CallsKeep(w, s);
  }

  // In every run, from any state the system can be in: the ledger stays within capacity, entries only
  // advance, and a recorded receipt never changes.
  lemma {:induction false} RunKeepsInv(w: World, steps: seq<Step>, end: World)
    requires Inv(w) && Runs(w, steps, end)
    ensures Inv(end) && Extends(w, end)
    decreases |steps|
  {
    if steps != [] {
      StepKeepsInv(w, steps[0]);
      RunKeepsInv(Apply(w, steps[0]), steps[1..], end);
    }
  }

  // ---- main results ----

  // The catalog is loaded at most once and the provider called at most once per reference.
  lemma AtMostOnce(capacity: nat, steps: seq<Step>, w: World)
    requires Runs(Start(capacity), steps, w)
    ensures forall i, j :: 0 <= i < j < |w.loads| ==>
              w.loads[i] < |w.calls| && w.loads[j] < |w.calls|
              && w.calls[w.loads[i]].reference != w.calls[w.loads[j]].reference
    ensures forall i, j :: 0 <= i < j < |w.submissions| ==>
              w.submissions[i] < |w.calls| && w.submissions[j] < |w.calls|
              && w.calls[w.submissions[i]].reference != w.calls[w.submissions[j]].reference
  {
    RunKeepsInv(Start(capacity), steps, w);
    DistinctWork(w, w.loads, 1);
    DistinctWork(w, w.submissions, 2);
  }

  lemma DistinctWork(w: World, work: seq<nat>, stage: nat)
    requires WorkOk(w, work, stage)
    ensures forall i, j :: 0 <= i < j < |work| ==>
              work[i] < |w.calls| && work[j] < |w.calls| && w.calls[work[i]].reference != w.calls[work[j]].reference
  {
    forall i, j | 0 <= i < j < |work|
      ensures work[i] < |w.calls| && work[j] < |w.calls| && w.calls[work[i]].reference != w.calls[work[j]].reference
    {
      assert Worked(w, work[i], stage) && Worked(w, work[j], stage);
    }
  }

  // At any later point of any run, every call that has succeeded for a reference holds the one receipt
  // in the ledger, which the provider or the reconciler produced for that reference.
  lemma OneReceipt(capacity: nat, steps: seq<Step>, w: World, more: seq<Step>, end: World, c: nat, d: nat)
    requires Runs(Start(capacity), steps, w) && Runs(w, more, end)
    requires c < |w.calls| && d < |end.calls| && w.calls[c].reference == end.calls[d].reference
    requires w.calls[c].pc.Returned? && w.calls[c].pc.result.Ok?
    requires end.calls[d].pc.Returned? && end.calls[d].pc.result.Ok?
    ensures w.calls[c].pc.result.value.0 == end.calls[d].pc.result.value.0
    ensures end.calls[d].reference in end.ledger
    ensures end.ledger[end.calls[d].reference] == Submitted(end.calls[d].pc.result.value.0)
    ensures (end.calls[d].reference, end.calls[d].pc.result.value.0) in w.offered
  {
    RunKeepsInv(Start(capacity), steps, w);
    RunKeepsInv(w, more, end);
    assert CallInv(w, c) && CallInv(end, d);
  }

  // Over any stretch of any run an entry stays or advances, and the ledger is never over capacity.
  lemma EntriesOnlyAdvance(capacity: nat, steps: seq<Step>, w: World, more: seq<Step>, end: World)
    requires Runs(Start(capacity), steps, w) && Runs(w, more, end)
    ensures Advances(w.ledger, end.ledger) && |end.ledger| <= capacity
    ensures forall r :: Stage(w.ledger, r) <= Stage(end.ledger, r)
  {
    RunKeepsInv(Start(capacity), steps, w);
    RunKeepsInv(w, more, end);
  }

  // ---- one call, on the in-memory ledger ----

  // AiBatchSubmitter::submit. `loaded` is the catalog's verdict and `answer` the provider's; `interim`
  // is what other callers have made of the ledger by the time the provider answers.
  method Submit(ledger: InMemoryBatchLedger, reference: Reference, loaded: bool, answer: Option<Receipt>,
                interim: Ledger)
      returns (result: Result<(Receipt, Disposition), SubmitError>, loads: nat, submissions: nat)
    requires ledger.Valid() && |interim| <= ledger.capacity
    requires Advances(AtomicReserve(ledger.state, ledger.capacity, reference).0, interim)
    modifies ledger
    ensures ledger.Valid() && Advances(old(ledger.state), ledger.state)
    ensures loads == (if reference !in old(ledger.state) && |old(ledger.state)| < ledger.capacity then 1 else 0)
    ensures submissions == (if loaded then loads else 0)
    ensures loads == 1 ==> reference in interim
    ensures result.Ok? ==> reference in ledger.state && ledger.state[reference] == Submitted(result.value.0)
    ensures result.Ok? && result.value.1 == NewSubmission ==> submissions == 1 && answer == Some(result.value.0)
    ensures result.Ok? && result.value.1 == ExistingSubmission ==> loads == 0 && old(ledger.state) == ledger.state
    ensures result.Ok? <==>
              || (reference in old(ledger.state) && old(ledger.state)[reference].Submitted?)
              || (submissions == 1 && answer.Some? && interim[reference] in {Pending, Submitted(answer.value)})
    ensures result == Err(LedgerReserveFailed) <==>
              reference !in old(ledger.state) && |old(ledger.state)| == ledger.capacity
    ensures result == Err(CatalogFailed) <==> loads == 1 && !loaded
    ensures result == Err(ProviderFailed) <==> submissions == 1 && answer.None?
    ensures result == Err(StillPendingElsewhere) <==>
              reference in old(ledger.state) && old(ledger.state)[reference].Pending?
    ensures result.Err? && result.error.LedgerRecordFailed? ==>
              && answer == Some(result.error.receipt)
              && reference in ledger.state && ledger.state[reference].Submitted?
              && ledger.state[reference].receipt != result.error.receipt
  {
    loads, submissions := 0, 0;
    var reserved := ledger.Reserve(reference);
    if reserved.Err? { return Err(LedgerReserveFailed), loads, submissions; }
    match reserved.value {
      case AlreadySubmitted(receipt) => return Ok((receipt, ExistingSubmission)), loads, submissions;
      case StillPending => return Err(StillPendingElsewhere), loads, submissions;
      case Reserved =>
    }
    ledger.state := interim;
    loads := 1;
    if !loaded { return Err(CatalogFailed), loads, submissions; }
    submissions := 1;
    if answer.None? { return Err(ProviderFailed), loads, submissions; }
    var recorded := ledger.RecordSubmission(reference, answer.value);
    if recorded.Err? { return Err(LedgerRecordFailed(answer.value)), loads, submissions; }
    result := Ok((answer.value, NewSubmission));
  }
}
