// The PostgreSQL evaluation ledger under the evaluation submitter.
//
// Every SQL statement is one atomic step of the database; `reserve` and `record_completed` are two
// statements each, so other calls run between them. Any number of `submit` calls and outside
// reconciliations proceed at once; a statement may execute and still report a storage failure, and
// a call may crash after any step.
module EvaluationStore {
  import opened Common
  import opened EvaluationLedger

  datatype Row = Row(catalogId: string, status: string)

  type Table = map<Key, Row>

  // The ledger a table stands for. Any text but "pending" reads as completed here; the invariant
  // shows that only "pending" and "completed" are ever stored.
  function Abs(table: Table): Ledger {
    map k | k in table :: RunState(table[k].catalogId, if table[k].status == "pending" then Pending else Completed)
  }

  // validate_reference.
  predicate ValidIdentifier(s: string) {
    s != "" && '\0' !in s && Utf8Length(s) <= 128
  }

  predicate ValidReference(r: Reference) {
    ValidIdentifier(r.scope) && ValidIdentifier(r.catalogId) && ValidIdentifier(r.runKey)
  }

  // Where a call stands. Times count the steps of the whole system so far.
  datatype Pc =
    | Inserting(since: nat)
    | Selecting(since: nat)
    | Loading
    | Executing
    | Updating(since: nat)
    | Classifying(since: nat, updatedAt: nat)
    | Finished

  datatype Call = Call(reference: Reference, pc: Pc)

  datatype OpId = OpId(call: nat, reserves: bool)

  // A ledger operation that answered its caller, and the interval it ran in.
  datatype Reply = Reply(id: OpId, since: nat, until: nat, answer: Answer)

  // `ledgers[t]` is the ledger after t steps and `acts[t]` names the operation whose writing statement
  // was step t, if any. `loads` and `executions` list the calls that loaded a catalog entry and that
  // ran a suite, in order. All four are history.
  datatype World = World(
    table: Table, calls: seq<Call>, ledgers: seq<Ledger>, acts: seq<Option<OpId>>, replies: seq<Reply>,
    loads: seq<nat>, executions: seq<nat>)

  const Start: World := World(map[], [], [map[]], [], [], [], [])

  datatype Step =
    | Submit(reference: Reference)
    | Reconcile(reference: Reference)
    | Insert(call: nat, delivered: bool)
    | Select(call: nat, delivered: bool)
    | Load(call: nat, success: bool)
    | Execute(call: nat, success: bool)
    | Update(call: nat, delivered: bool)
    | Classify(call: nat, delivered: bool)
    | Crash(call: nat)

  predicate Enabled(w: World, s: Step) {
    match s
    case Submit(r) => true
    case Reconcile(r) => true
    case _ =>
      && s.call < |w.calls|
      && var pc := w.calls[s.call].pc;
         match s
         case Insert(_, _) => pc.Inserting?
         case Select(_, _) => pc.Selecting?
         case Load(_, _) => pc.Loading?
         case Execute(_, _) => pc.Executing?
         case Update(_, _) => pc.Updating?
         case Classify(_, _) => pc.Classifying?
         case _ => true
  }

  function Now(w: World): nat {
    if w.ledgers == [] then 0 else |w.ledgers| - 1
  }

  // The operation that call `c` is in, as the atomic ledger would see it.
  function OpOf(w: World, id: OpId): Operation
    requires id.call < |w.calls|
  {
    if id.reserves then Reserve(w.calls[id.call].reference) else Record(w.calls[id.call].reference)
  }

  function Goto(w: World, c: nat, pc: Pc): World
    requires c < |w.calls|
  {
    w.(calls := w.calls[c := w.calls[c].(pc := pc)])
  }

  function Answered(w: World, c: nat, reserves: bool, since: nat, answer: Answer): World {
    w.(replies := w.replies + [Reply(OpId(c, reserves), since, Now(w), answer)])
  }

  // One more step of the clock, which leaves `table` behind.
  function Tick(w: World, table: Table, act: Option<OpId>): World {
    w.(table := table, ledgers := w.ledgers + [Abs(table)], acts := w.acts + [act])
  }

  // classify_existing: what the second statement of reserve makes of the row it finds.
  function ClassifyReserve(table: Table, r: Reference): Result<Reservation, LedgerError> {
    if KeyOf(r) !in table then Err(MissingReservation)
    else if table[KeyOf(r)].catalogId != r.catalogId then Err(IdentityConflict)
    else if table[KeyOf(r)].status == "pending" then Ok(StillPending)
    else if table[KeyOf(r)].status == "completed" then Ok(AlreadyCompleted)
    else Err(InvalidMetadata)
  }

  // classify_completion_conflict.
  function ClassifyRecord(table: Table, r: Reference): Result<(), LedgerError> {
    if KeyOf(r) in table && table[KeyOf(r)].catalogId != r.catalogId then Err(IdentityConflict)
    else Err(MissingReservation)
  }

  // The rows the UPDATE statement of record_run_completed matches.
  predicate Updatable(table: Table, r: Reference) {
    && KeyOf(r) in table
    && table[KeyOf(r)].catalogId == r.catalogId
    && table[KeyOf(r)].status in {"pending", "completed"}
  }

  function InsertStep(w: World, c: nat, delivered: bool): World
    requires c < |w.calls| && w.calls[c].pc.Inserting?
  {
    var r := w.calls[c].reference;
    if KeyOf(r) !in w.table then
      var w1 := if delivered
                then Goto(Answered(w, c, true, w.calls[c].pc.since, ReserveAnswer(Ok(Reserved))), c, Loading)
                else Goto(w, c, Finished);
      Tick(w1, w.table[KeyOf(r) := Row(r.catalogId, "pending")], Some(OpId(c, true)))
    else
      Tick(Goto(w, c, if delivered then Selecting(w.calls[c].pc.since) else Finished), w.table, None)
  }

  function SelectStep(w: World, c: nat, delivered: bool): World
    requires c < |w.calls| && w.calls[c].pc.Selecting?
  {
    var answer := ReserveAnswer(ClassifyReserve(w.table, w.calls[c].reference));
    var w1 := if delivered then Answered(w, c, true, w.calls[c].pc.since, answer) else w;
    Tick(Goto(w1, c, Finished), w.table, None)
  }

  function UpdateStep(w: World, c: nat, delivered: bool): World
    requires c < |w.calls| && w.calls[c].pc.Updating?
  {
    var r := w.calls[c].reference;
    var since := w.calls[c].pc.since;
    if Updatable(w.table, r) then
      var w1 := if delivered then Answered(w, c, false, since, RecordAnswer(Ok(()))) else w;
      Tick(Goto(w1, c, Finished), w.table[KeyOf(r) := Row(r.catalogId, "completed")], Some(OpId(c, false)))
    else
      Tick(Goto(w, c, if delivered then Classifying(since, Now(w)) else Finished), w.table, None)
  }

  function ClassifyStep(w: World, c: nat, delivered: bool): World
    requires c < |w.calls| && w.calls[c].pc.Classifying?
  {
    var answer := RecordAnswer(ClassifyRecord(w.table, w.calls[c].reference));
    var w1 := if delivered then Answered(w, c, false, w.calls[c].pc.since, answer) else w;
    Tick(Goto(w1, c, Finished), w.table, None)
  }

  function Apply(w: World, s: Step): World
    requires Enabled(w, s)
  {
    match s
    case Submit(r) =>
      Tick(w.(calls := w.calls + [Call(r, if ValidReference(r) then Inserting(Now(w)) else Finished)]), w.table, None)
    case Reconcile(r) =>
      Tick(w.(calls := w.calls + [Call(r, if ValidReference(r) then Updating(Now(w)) else Finished)]), w.table, None)
    case Insert(c, delivered) => InsertStep(w, c, delivered)
    case Select(c, delivered) => SelectStep(w, c, delivered)
    case Load(c, success) =>
      Tick(Goto(w, c, if success then Executing else Finished).(loads := w.loads + [c]), w.table, None)
    case Execute(c, success) =>
      Tick(Goto(w, c, if success then Updating(Now(w)) else Finished).(executions := w.executions + [c]), w.table, None)
    case Update(c, delivered) => UpdateStep(w, c, delivered)
    case Classify(c, delivered) => ClassifyStep(w, c, delivered)
    case Crash(c) => Tick(Goto(w, c, Finished), w.table, None)
  }

  ghost predicate Runs(w: World, steps: seq<Step>, end: World)
    decreases |steps|
  {
    if steps == [] then end == w
    else Enabled(w, steps[0]) && Runs(Apply(w, steps[0]), steps[1..], end)
  }

  // ---- the invariant ----

  ghost predicate ActStep(w: World, t: nat)
    requires t < |w.acts| && |w.ledgers| == |w.acts| + 1
  {
    match w.acts[t]
    case None => w.ledgers[t + 1] == w.ledgers[t]
    case Some(id) =>
      && id.call < |w.calls|
      && w.ledgers[t + 1] == Atomic(w.ledgers[t], None, OpOf(w, id)).0
      && (id.reserves ==> KeyOf(w.calls[id.call].reference) !in w.ledgers[t])
      && !w.calls[id.call].pc.Inserting? && !w.calls[id.call].pc.Selecting?
      && (!id.reserves ==> w.calls[id.call].pc.Finished?)
  }

  // Each step changes the ledger only as the atomic operation it belongs to would, and each operation
  // writes at most once.
  ghost predicate HistoryOk(w: World) {
    && |w.ledgers| == |w.acts| + 1
    && w.ledgers[|w.acts|] == Abs(w.table)
    && (forall t :: 0 <= t < |w.acts| ==> ActStep(w, t))
    && (forall t, u :: 0 <= t < u < |w.acts| && w.acts[t].Some? ==> w.acts[t] != w.acts[u])
    && forall k :: k in w.table ==> w.table[k].status in {"pending", "completed"}
  }

  ghost predicate Acted(w: World, id: OpId) {
    Some(id) in w.acts
  }

  ghost predicate CallOk(w: World, c: nat)
    requires c < |w.calls| && HistoryOk(w)
  {
    var call := w.calls[c];
    match call.pc
    case Inserting(since) => since <= Now(w)
    case Selecting(since) => since <= Now(w) && KeyOf(call.reference) in w.table
    case Loading => Acted(w, OpId(c, true))
    case Executing => Acted(w, OpId(c, true))
    case Updating(since) => since <= Now(w)
    case Classifying(since, at) =>
      && since <= at < Now(w)
      && (KeyOf(call.reference) in w.ledgers[at] ==>
           w.ledgers[at][KeyOf(call.reference)].catalogId != call.reference.catalogId)
    case Finished => true
  }

  // The instant t explains the reply: the atomic ledger of that instant gives that answer, t is inside
  // the operation's interval, and if the operation wrote anything it wrote it then.
  ghost predicate ExplainedAt(w: World, reply: Reply, t: nat)
    requires |w.ledgers| == |w.acts| + 1
  {
    && reply.since <= t <= reply.until < |w.acts|
    && reply.id.call < |w.calls|
    && var op := OpOf(w, reply.id);
       && Atomic(w.ledgers[t], None, op).1 == reply.answer
       && (Atomic(w.ledgers[t], None, op).0 != w.ledgers[t] ==> w.acts[t] == Some(reply.id))
       && forall u :: 0 <= u < |w.acts| && w.acts[u] == Some(reply.id) ==> u == t
  }

  ghost predicate Explained(w: World, reply: Reply)
    requires |w.ledgers| == |w.acts| + 1
  {
    exists t :: ExplainedAt(w, reply, t)
  }

  ghost predicate ReplyOk(w: World, reply: Reply)
    requires |w.ledgers| == |w.acts| + 1
  {
    && reply.id.call < |w.calls|
    && !w.calls[reply.id.call].pc.Inserting? && !w.calls[reply.id.call].pc.Selecting?
    && (!reply.id.reserves ==> w.calls[reply.id.call].pc.Finished?)
    && Explained(w, reply)
  }

  predicate Past(pc: Pc, stage: nat) {
    match pc
    case Inserting(_) => false
    case Selecting(_) => false
    case Loading => stage < 1
    case Executing => stage < 2
    case _ => true
  }

  // Each listed call did the work once, after reserving.
  ghost predicate WorkOk(w: World, work: seq<nat>, stage: nat) {
    && (forall i :: 0 <= i < |work| ==>
          work[i] < |w.calls| && Past(w.calls[work[i]].pc, stage) && Acted(w, OpId(work[i], true)))
    && forall i, j :: 0 <= i < j < |work| ==> work[i] != work[j]
  }

  ghost predicate Inv(w: World) {
    && HistoryOk(w)
    && (forall c :: 0 <= c < |w.calls| ==> CallOk(w, c))
    && (forall i :: 0 <= i < |w.replies| ==> ReplyOk(w, w.replies[i]))
    && WorkOk(w, w.loads, 1)
    && WorkOk(w, w.executions, 2)
  }

  // ---- histories ----

  lemma {:induction false} LedgersAdvance(w: World, i: nat, j: nat)
    requires HistoryOk(w) && i <= j < |w.ledgers|
    ensures Advances(w.ledgers[i], w.ledgers[j])
    decreases j - i
  {
    if i < j {
      assert ActStep(w, i);
      if w.acts[i].Some? { AtomicAdvances(w.ledgers[i], None, OpOf(w, w.acts[i].value)); }
      LedgersAdvance(w, i + 1, j);
      AdvancesTransitive(w.ledgers[i], w.ledgers[i + 1], w.ledgers[j]);
    }
  }

  lemma AbsPut(table: Table, k: Key, row: Row)
    ensures Abs(table[k := row]) ==
            Abs(table)[k := RunState(row.catalogId, if row.status == "pending" then Pending else Completed)]
  {
  }

  // What every step does: it adds one entry to the history, the entry is the atomic effect of the
  // operation it names, and no call moves back to a stage it has left.
  ghost predicate Continues(w: World, w': World, act: Option<OpId>) {
    && w'.acts == w.acts + [act] && w'.ledgers == w.ledgers + [Abs(w'.table)]
    && |w.calls| <= |w'.calls|
    && (forall c :: 0 <= c < |w.calls| ==>
          w'.calls[c].reference == w.calls[c].reference && PcAdvances(w.calls[c].pc, w'.calls[c].pc))
    && match act
       case None => w'.table == w.table
       case Some(id) =>
         && id.call < |w.calls|
         && Abs(w'.table) == Atomic(Abs(w.table), None, OpOf(w, id)).0
         && w'.table.Keys == w.table.Keys + {KeyOf(w.calls[id.call].reference)}
         && (forall k :: k in w'.table ==>
              w'.table[k].status in {"pending", "completed"} || (k in w.table && w'.table[k] == w.table[k]))
         && !w'.calls[id.call].pc.Inserting? && !w'.calls[id.call].pc.Selecting?
         && if id.reserves then w.calls[id.call].pc.Inserting? && KeyOf(w.calls[id.call].reference) !in w.table
            else w.calls[id.call].pc.Updating? && w'.calls[id.call].pc.Finished?
  }

  ghost predicate PcAdvances(before: Pc, after: Pc) {
    && (after.Inserting? ==> before.Inserting?)
    && (after.Selecting? ==> before.Inserting? || before.Selecting?)
    && (before.Finished? ==> after.Finished?)
    && (Past(before, 1) ==> Past(after, 1))
    && (Past(before, 2) ==> Past(after, 2))
  }

  function ActOf(w: World, s: Step): Option<OpId>
    requires Enabled(w, s)
  {
    match s
    case Insert(c, _) => if KeyOf(w.calls[c].reference) !in w.table then Some(OpId(c, true)) else None
    case Update(c, _) => if Updatable(w.table, w.calls[c].reference) then Some(OpId(c, false)) else None
    case _ => None
  }

  lemma InsertContinues(w: World, c: nat, delivered: bool)
    requires Enabled(w, Insert(c, delivered))
    ensures Continues(w, InsertStep(w, c, delivered), ActOf(w, Insert(c, delivered)))
  {
    AbsPut(w.table, KeyOf(w.calls[c].reference), Row(w.calls[c].reference.catalogId, "pending"));
  }

  lemma UpdateContinues(w: World, c: nat, delivered: bool)
    requires Enabled(w, Update(c, delivered))
    ensures Continues(w, UpdateStep(w, c, delivered), ActOf(w, Update(c, delivered)))
  {
    AbsPut(w.table, KeyOf(w.calls[c].reference), Row(w.calls[c].reference.catalogId, "completed"));
  }

  lemma StepContinues(w: World, s: Step)
    requires Enabled(w, s)
    ensures Continues(w, Apply(w, s), ActOf(w, s))
  {
    if s.Insert? {
      InsertContinues(w, s.call, s.delivered);
    } else if s.Update? {
      UpdateContinues(w, s.call, s.delivered);
    }
  }

  lemma HistoryContinues(w: World, w': World, act: Option<OpId>)
    requires HistoryOk(w) && Continues(w, w', act)
    ensures HistoryOk(w')
  {
    forall t | 0 <= t < |w'.acts| ensures ActStep(w', t) {
      if t < |w.acts| { assert ActStep(w, t); }
    }
    forall t, u | 0 <= t < u < |w'.acts| && w'.acts[t].Some? ensures w'.acts[t] != w'.acts[u] {
      assert ActStep(w, t);
    }
  }

  // A call that does not move keeps what the invariant says of it.
  lemma CallContinues(w: World, w': World, act: Option<OpId>, c: nat)
    requires HistoryOk(w) && HistoryOk(w') && Continues(w, w', act)
    requires c < |w.calls| && CallOk(w, c) && w'.calls[c] == w.calls[c]
    ensures CallOk(w', c)
  {
    assert Acted(w, OpId(c, true)) ==> Acted(w', OpId(c, true));
  }

  lemma ReplyContinues(w: World, w': World, act: Option<OpId>, reply: Reply)
    requires HistoryOk(w) && HistoryOk(w') && Continues(w, w', act) && ReplyOk(w, reply)
    ensures ReplyOk(w', reply)
  {
    var t :| ExplainedAt(w, reply, t);
    assert act != Some(reply.id);
    assert ExplainedAt(w', reply, t);
  }

  lemma WorkContinues(w: World, w': World, act: Option<OpId>, work: seq<nat>, stage: nat)
    requires HistoryOk(w) && Continues(w, w', act) && WorkOk(w, work, stage) && stage in {1, 2}
    ensures WorkOk(w', work, stage)
  {
    forall i | 0 <= i < |work|
      ensures work[i] < |w'.calls| && Past(w'.calls[work[i]].pc, stage) && Acted(w', OpId(work[i], true))
    {
      assert Acted(w, OpId(work[i], true));
    }
  }

  // ---- the moving call and the reply it may get ----

  lemma MoverKeeps(w: World, s: Step)
    requires Inv(w) && Enabled(w, s) && HistoryOk(Apply(w, s)) && !s.Submit? && !s.Reconcile?
    ensures CallOk(Apply(w, s), s.call)
  {
    var w' := Apply(w, s);
    assert CallOk(w, s.call);
    if s.Insert? && w'.calls[s.call].pc.Loading? {
      assert w'.acts[|w.acts|] == Some(OpId(s.call, true));
    }
    if s.Load? {
      assert Acted(w, OpId(s.call, true)) ==> Acted(w', OpId(s.call, true));
    }
  }

  // INSERT and UPDATE answer at their own instant.
  lemma WriteReplyOk(w: World, s: Step)
    requires Inv(w) && Enabled(w, s) && HistoryOk(Apply(w, s)) && (s.Insert? || s.Update?)
    requires |Apply(w, s).replies| == |w.replies| + 1
    ensures ReplyOk(Apply(w, s), Apply(w, s).replies[|w.replies|])
  {
    var w' := Apply(w, s);
    var reply := w'.replies[|w.replies|];
    assert CallOk(w, s.call);
    assert w'.acts[|w.acts|] == Some(reply.id);
    assert ExplainedAt(w', reply, |w.acts|);
  }

  // The SELECT after a conflicting INSERT answers for its own instant: the row is still there.
  lemma SelectReplyOk(w: World, c: nat)
    requires Inv(w) && Enabled(w, Select(c, true)) && HistoryOk(Apply(w, Select(c, true)))
    ensures var w' := Apply(w, Select(c, true)); ReplyOk(w', w'.replies[|w.replies|])
  {
    var w' := Apply(w, Select(c, true));
    var reply := w'.replies[|w.replies|];
    assert CallOk(w, c);
    forall u | 0 <= u < |w.acts| ensures w.acts[u] != Some(reply.id) { assert ActStep(w, u); }
    assert ExplainedAt(w', reply, |w.acts|);
  }

  // The SELECT after an unmatched UPDATE. If it now finds the caller's own row, the row was inserted
  // in between, and the missing-reservation answer belongs to the instant of the UPDATE.
  lemma ClassifyReplyOk(w: World, c: nat)
    requires Inv(w) && Enabled(w, Classify(c, true)) && HistoryOk(Apply(w, Classify(c, true)))
    ensures var w' := Apply(w, Classify(c, true)); ReplyOk(w', w'.replies[|w.replies|])
  {
    var w' := Apply(w, Classify(c, true));
    var reply := w'.replies[|w.replies|];
    assert CallOk(w, c);
    var at := w.calls[c].pc.updatedAt;
    var r := w.calls[c].reference;
    LedgersAdvance(w, at, |w.acts|);
    forall u | 0 <= u < |w.acts| ensures w.acts[u] != Some(reply.id) { assert ActStep(w, u); }
    if KeyOf(r) in w.table && w.table[KeyOf(r)].catalogId == r.catalogId {
      assert ExplainedAt(w', reply, at);
    } else {
      assert ExplainedAt(w', reply, |w.acts|);
    }
  }

  lemma StepKeepsReplies(w: World, s: Step)
    requires Inv(w) && Enabled(w, s) && HistoryOk(Apply(w, s))
    ensures forall i :: 0 <= i < |Apply(w, s).replies| ==> ReplyOk(Apply(w, s), Apply(w, s).replies[i])
  {
    var w' := Apply(w, s);
    StepContinues(w, s);
    forall i | 0 <= i < |w'.replies| ensures ReplyOk(w', w'.replies[i]) {
      if i < |w.replies| {
        ReplyContinues(w, w', ActOf(w, s), w.replies[i]);
      } else if s.Insert? || s.Update? {
        WriteReplyOk(w, s);
      } else if s.Select? {
        SelectReplyOk(w, s.call);
      } else {
        ClassifyReplyOk(w, s.call);
      }
    }
  }

  lemma StepKeepsWork(w: World, s: Step)
    requires Inv(w) && Enabled(w, s)
    ensures WorkOk(Apply(w, s), Apply(w, s).loads, 1) && WorkOk(Apply(w, s), Apply(w, s).executions, 2)
  {
    var w' := Apply(w, s);
    StepContinues(w, s);
    if s.Load? || s.Execute? { assert CallOk(w, s.call); }
    if s.Load? {
      WorkGrows(w, w', ActOf(w, s), w.loads, s.call, 1);
    } else {
      WorkContinues(w, w', ActOf(w, s), w.loads, 1);
    }
    if s.Execute? {
      WorkGrows(w, w', ActOf(w, s), w.executions, s.call, 2);
    } else {
      WorkContinues(w, w', ActOf(w, s), w.executions, 2);
    }
  }

  lemma WorkGrows(w: World, w': World, act: Option<OpId>, work: seq<nat>, c: nat, stage: nat)
    requires HistoryOk(w) && Continues(w, w', act) && WorkOk(w, work, stage) && stage in {1, 2}
    requires c < |w.calls| && Acted(w, OpId(c, true)) && !Past(w.calls[c].pc, stage) && Past(w'.calls[c].pc, stage)
    ensures WorkOk(w', work + [c], stage)
  {
    WorkContinues(w, w', act, work, stage);
    var t :| 0 <= t < |w.acts| && w.acts[t] == Some(OpId(c, true));
    assert w'.acts[t] == Some(OpId(c, true));
  }

  lemma StepKeepsInv(w: World, s: Step)
    requires Inv(w) && Enabled(w, s)
    ensures Inv(Apply(w, s))
  {
    var w' := Apply(w, s);
    StepContinues(w, s);
    HistoryContinues(w, w', ActOf(w, s));
    StepKeepsReplies(w, s);
    StepKeepsWork(w, s);
    StepKeepsCalls(w, s);
  }

  lemma StepKeepsCalls(w: World, s: Step)
    requires Inv(w) && Enabled(w, s) && HistoryOk(Apply(w, s))
    ensures forall c :: 0 <= c < |Apply(w, s).calls| ==> CallOk(Apply(w, s), c)
  {
    var w' := Apply(w, s);
    StepContinues(w, s);
    forall c | 0 <= c < |w'.calls| ensures CallOk(w', c) {
      if c < |w.calls| && w'.calls[c] == w.calls[c] {
        CallContinues(w, w', ActOf(w, s), c);
      } else if c < |w.calls| {
        MoverKeeps(w, s);
      }
    }
  }

  lemma {:induction false} RunKeepsInv(w: World, steps: seq<Step>, end: World)
    requires Inv(w) && Runs(w, steps, end)
    ensures Inv(end)
    decreases |steps|
  {
    if steps != [] {
      StepKeepsInv(w, steps[0]);
      RunKeepsInv(Apply(w, steps[0]), steps[1..], end);
    }
  }

  // ---- the theorems ----

  // The two-statement operations are linearizable to the atomic ledger: the ledger changes only as one
  // operation at a time would change it, no operation writes twice, and every reply is the atomic
  // ledger's answer at an instant inside the operation's interval, the instant it wrote if it wrote.
  lemma Linearizable(steps: seq<Step>, w: World)
    requires Runs(Start, steps, w)
    ensures |w.ledgers| == |w.acts| + 1 && w.ledgers[0] == map[] && w.ledgers[|w.acts|] == Abs(w.table)
    ensures forall t :: 0 <= t < |w.acts| ==> ActStep(w, t)
    ensures forall t, u :: 0 <= t < u < |w.acts| && w.acts[t].Some? ==> w.acts[t] != w.acts[u]
    ensures forall i :: 0 <= i < |w.replies| ==> Explained(w, w.replies[i])
  {
    RunKeepsInv(Start, steps, w);
    FirstLedgerEmpty(Start, steps, w);
  }

  lemma {:induction false} FirstLedgerEmpty(w: World, steps: seq<Step>, end: World)
    requires w.ledgers != [] && w.ledgers[0] == map[] && Runs(w, steps, end)
    ensures end.ledgers != [] && end.ledgers[0] == map[]
    decreases |steps|
  {
    if steps != [] {
      StepContinues(w, steps[0]);
      FirstLedgerEmpty(Apply(w, steps[0]), steps[1..], end);
    }
  }

  // At most one call ever reserves a (scope, run_key).
  lemma OneReservation(w: World, c: nat, d: nat)
    requires Inv(w) && Acted(w, OpId(c, true)) && Acted(w, OpId(d, true))
    requires c < |w.calls| && d < |w.calls| && KeyOf(w.calls[c].reference) == KeyOf(w.calls[d].reference)
    ensures c == d
  {
    var t :| 0 <= t < |w.acts| && w.acts[t] == Some(OpId(c, true));
    var u :| 0 <= u < |w.acts| && w.acts[u] == Some(OpId(d, true));
    assert ActStep(w, t) && ActStep(w, u);
    if t < u { LedgersAdvance(w, t + 1, u); }
    if u < t { LedgersAdvance(w, u + 1, t); }
  }

  // In every run, at most one catalog identity per (scope, run_key) is ever loaded or executed, at
  // most once, and it is the identity the ledger row holds.
  lemma AtMostOnce(steps: seq<Step>, w: World)
    requires Runs(Start, steps, w)
    ensures forall i :: 0 <= i < |w.loads| ==> w.loads[i] < |w.calls|
    ensures forall i :: 0 <= i < |w.executions| ==> w.executions[i] < |w.calls|
    ensures forall i, j :: 0 <= i < j < |w.loads| ==>
              KeyOf(w.calls[w.loads[i]].reference) != KeyOf(w.calls[w.loads[j]].reference)
    ensures forall i, j :: 0 <= i < j < |w.executions| ==>
              KeyOf(w.calls[w.executions[i]].reference) != KeyOf(w.calls[w.executions[j]].reference)
    ensures forall i :: 0 <= i < |w.loads| ==> Recorded(w, w.loads[i])
    ensures forall i :: 0 <= i < |w.executions| ==> Recorded(w, w.executions[i])
  {
    RunKeepsInv(Start, steps, w);
    DistinctKeys(w, w.loads, 1);
    DistinctKeys(w, w.executions, 2);
    forall i | 0 <= i < |w.loads| ensures Recorded(w, w.loads[i]) { ReservedIsRecorded(w, w.loads[i]); }
    forall i | 0 <= i < |w.executions| ensures Recorded(w, w.executions[i]) { ReservedIsRecorded(w, w.executions[i]); }
  }

  // The table holds the identity this call was made for.
  predicate Recorded(w: World, c: nat)
    requires c < |w.calls|
  {
    var r := w.calls[c].reference;
    KeyOf(r) in w.table && w.table[KeyOf(r)].catalogId == r.catalogId
  }

  lemma ReservedIsRecorded(w: World, c: nat)
    requires Inv(w) && c < |w.calls| && Acted(w, OpId(c, true))
    ensures Recorded(w, c)
  {
    var t :| 0 <= t < |w.acts| && w.acts[t] == Some(OpId(c, true));
    assert ActStep(w, t);
    LedgersAdvance(w, t + 1, |w.acts|);
    assert KeyOf(w.calls[c].reference) in w.ledgers[t + 1];
  }

  lemma DistinctKeys(w: World, work: seq<nat>, stage: nat)
    requires Inv(w) && WorkOk(w, work, stage)
    ensures forall i, j :: 0 <= i < j < |work| ==>
              KeyOf(w.calls[work[i]].reference) != KeyOf(w.calls[work[j]].reference)
  {
    forall i, j | 0 <= i < j < |work| ensures KeyOf(w.calls[work[i]].reference) != KeyOf(w.calls[work[j]].reference) {
      if KeyOf(w.calls[work[i]].reference) == KeyOf(w.calls[work[j]].reference) {
        OneReservation(w, work[i], work[j]);
      }
    }
  }
}
