// The receive loop of one worker: run_with_failure_routing, against the step system.
module KafkaReceiveLoop {
  import opened Common
  import opened KafkaConsumer

  // What the outside world answers during one turn of the loop: the handler's verdict, whether the
  // failure router persisted its action and where, the error it returned if any, and whether the commit
  // was stored and confirmed.
  datatype Turn = Turn(
    place: Place, handled: bool, persisted: bool, partition: nat, refused: Option<KafkaError>, stored: bool,
    committed: bool)

  // The router returns one of its errors, or succeeds having persisted its action.
  predicate Plausible(cfg: RetryConfig, turn: Turn) {
    if turn.refused.Some? then turn.refused.value in cfg.routerErrors else turn.persisted
  }

  const MAX_TOPIC_BYTES: nat := 249

  // The White_Space property of Unicode.
  predicate Whitespace(ch: char) {
    var c := ch as int;
    || 0x09 <= c <= 0x0D || 0x2000 <= c <= 0x200A
    || c in {0x20, 0x85, 0xA0, 0x1680, 0x2028, 0x2029, 0x202F, 0x205F, 0x3000}
  }

  // validate_topic_name
  predicate ValidTopicName(topic: string) {
    && !(forall i :: 0 <= i < |topic| ==> Whitespace(topic[i]))
    && Utf8Length(topic) <= MAX_TOPIC_BYTES
    && '\0' !in topic
    && !exists i :: 0 <= i < |topic| && Whitespace(topic[i])
  }

  // validate_failure_route_topics
  function ValidateFailureRoute(cfg: RetryConfig, subscribed: seq<string>): (r: Result<(), KafkaError>)
    requires 1 <= cfg.maxDeliveries <= U16_MAX
    ensures r.Ok? || r == Err(RetryTopicNotSubscribed) <==>
              ValidTopicName(cfg.retry) && ValidTopicName(cfg.deadLetter) && ValidConfig(cfg)
    ensures r.Ok? ==> cfg.retry in subscribed
    ensures r == Err(RetryTopicNotSubscribed) ==> cfg.retry !in subscribed
    ensures r.Err? ==> r.error in {FailureRouteConfiguration, RetryTopicNotSubscribed}
  {
    if || !ValidTopicName(cfg.retry) || !ValidTopicName(cfg.deadLetter)
       || cfg.retry == cfg.source || cfg.deadLetter == cfg.source || cfg.retry == cfg.deadLetter
    then Err(FailureRouteConfiguration)
    else if cfg.retry !in subscribed then Err(RetryTopicNotSubscribed)
    else Ok(())
  }

  // How many of the turns read from partition `p`.
  function Served(turns: seq<Turn>, p: Place): nat {
    if turns == [] then 0
    else Served(turns[..|turns| - 1], p) + if turns[|turns| - 1].place == p then 1 else 0
  }

  // The delivery of `id` in this turn ended as the handler and router decided.
  ghost predicate Delivered(w: World, turn: Turn, id: RecordId) {
    if turn.handled then id in w.handled else exists child :: Child(w, id, child)
  }

  // The i-th turn read the next record of its partition and delivered it as the turn said.
  ghost predicate DeliveredAll(before: map<Place, nat>, w: World, turns: seq<Turn>) {
    forall i :: 0 <= i < |turns| ==> DeliveredTurn(before, w, turns, i)
  }

  ghost predicate DeliveredTurn(before: map<Place, nat>, w: World, turns: seq<Turn>, i: nat)
    requires i < |turns|
  {
    var p := turns[i].place;
    p in before && Delivered(w, turns[i], RecordId(p, before[p] + Served(turns[..i], p)))
  }

  // The read positions moved by one record per turn.
  ghost predicate Advanced(before: map<Place, nat>, after: map<Place, nat>, turns: seq<Turn>) {
    && after.Keys == before.Keys
    && forall p :: p in after ==> after[p] == before[p] + Served(turns, p)
  }

  // A worker stopped between two records has read one record per turn, in partition order, and delivered
  // each as its turn said.
  ghost predicate CleanStop(w0: World, w: World, k: nat, turns: seq<Turn>) {
    && WorkerOf(w, k).stage == Polling
    && Advanced(WorkerOf(w0, k).next, WorkerOf(w, k).next, turns)
    && DeliveredAll(WorkerOf(w0, k).next, w, turns)
  }

  lemma GrowsKeepsDelivered(w: World, w': World, turn: Turn, id: RecordId)
    requires Grows(w, w') && Delivered(w, turn, id)
    ensures Delivered(w', turn, id)
  {
    if !turn.handled {
      var child :| Child(w, id, child);
      GrowsKeepsRecord(w, w', child);
      assert Child(w', id, child);
    }
  }

  ghost predicate TurnDone(w: World, w': World, k: nat, turn: Turn) {
    && turn.place in WorkerOf(w, k).next
    && var n := WorkerOf(w, k).next[turn.place];
       && WorkerOf(w', k) == Worker(WorkerOf(w, k).next[turn.place := n + 1], Polling)
       && w'.committed == w.committed[turn.place := n + 1]
       && Delivered(w', turn, RecordId(turn.place, n))
  }

  lemma DeliveredExtends(before: map<Place, nat>, w: World, w': World, turns: seq<Turn>, turn: Turn)
    requires DeliveredAll(before, w, turns) && Grows(w, w') && turn.place in before
    requires Delivered(w', turn, RecordId(turn.place, before[turn.place] + Served(turns, turn.place)))
    ensures DeliveredAll(before, w', turns + [turn])
  {
    var more := turns + [turn];
    forall i | 0 <= i < |more| ensures DeliveredTurn(before, w', more, i) {
      if i < |turns| {
        assert more[..i] == turns[..i] && DeliveredTurn(before, w, turns, i);
        var p := turns[i].place;
        GrowsKeepsDelivered(w, w', turns[i], RecordId(p, before[p] + Served(turns[..i], p)));
      } else {
        assert more[..i] == turns;
      }
    }
  }

  lemma CleanStopExtends(w0: World, w: World, w': World, k: nat, turns: seq<Turn>, turn: Turn)
    requires CleanStop(w0, w, k, turns) && TurnDone(w, w', k, turn) && Grows(w, w')
    ensures CleanStop(w0, w', k, turns + [turn])
  {
    DeliveredExtends(WorkerOf(w0, k).next, w, w', turns, turn);
    forall p ensures Served(turns + [turn], p) == Served(turns, p) + if turn.place == p then 1 else 0 {
      ServedAppend(turns, turn, p);
    }
  }

  lemma ServedAppend(turns: seq<Turn>, turn: Turn, p: Place)
    ensures Served(turns + [turn], p) == Served(turns, p) + if turn.place == p then 1 else 0
  {
    assert (turns + [turn])[..|turns|] == turns;
  }

  // What others do leaves a worker between two records where it was.
  lemma CleanStopKeeps(w0: World, w: World, w': World, k: nat, turns: seq<Turn>)
    requires CleanStop(w0, w, k, turns) && WorkerOf(w', k) == WorkerOf(w, k) && Grows(w, w')
    ensures CleanStop(w0, w', k, turns)
  {
    var before := WorkerOf(w0, k).next;
    forall i | 0 <= i < |turns| ensures DeliveredTurn(before, w', turns, i) {
      assert DeliveredTurn(before, w, turns, i);
      var p := turns[i].place;
      GrowsKeepsDelivered(w, w', turns[i], RecordId(p, before[p] + Served(turns[..i], p)));
    }
  }

  // There is a record to read that the consumer may deliver, and its handler, or the router in its
  // stead, and the broker's commit all succeed.
  predicate Servable(w: World, k: nat, turn: Turn) {
    && Readable(w, k, turn.place)
    && var id := RecordId(turn.place, WorkerOf(w, k).next[turn.place]);
       && Deliverable(At(w, id))
       && (turn.handled || (OriginOf(id, At(w, id)).Ok? && turn.refused.None?))
       && turn.stored && turn.committed
  }

  predicate Readable(w: World, k: nat, p: Place) {
    p in WorkerOf(w, k).next && WorkerOf(w, k).next[p] < |Log(w, p)|
  }

  // One received record: dispatched, routed on failure, and committed, or the error that stopped it.
  method OneTurn(cfg: RetryConfig, w0: World, k: nat, turn: Turn)
      returns (w: World, result: Result<(), KafkaError>, ghost steps: seq<Step>)
    requires ValidConfig(cfg) && WorkerOf(w0, k).stage == Polling && Plausible(cfg, turn)
    ensures Runs(cfg, {}, w0, steps, w)
    ensures result.Err? ==> WorkerOf(w, k).stage == Stopped(Returned(result.error))
    ensures result.Err? && result.error != CommitError ==> w.committed == w0.committed
    ensures result.Ok? <==> Servable(w0, k, turn)
    ensures result.Ok? ==> TurnDone(w0, w, k, turn)
  {
    w, result, steps := Deliver(cfg, w0, k, turn);
    if result.Err? { return; }
    if WorkerOf(w, k).stage.Routing? {
      w, result, steps := Route(cfg, w0, w, steps, k, turn);
      if result.Err? { return; }
    }
    w, result, steps := CommitTurn(cfg, w0, w, steps, k, turn);
  }

  // recv, the header and payload checks, decoding and the handler.
  method Deliver(cfg: RetryConfig, w0: World, k: nat, turn: Turn)
      returns (w: World, result: Result<(), KafkaError>, ghost steps: seq<Step>)
    requires ValidConfig(cfg) && WorkerOf(w0, k).stage == Polling
    ensures Runs(cfg, {}, w0, steps, w) && w.committed == w0.committed
    ensures result.Err? ==> WorkerOf(w, k).stage == Stopped(Returned(result.error)) && result.error != CommitError
    ensures result.Ok? <==>
              && Readable(w0, k, turn.place)
              && var id := RecordId(turn.place, WorkerOf(w0, k).next[turn.place]);
                 Deliverable(At(w0, id)) && (turn.handled || OriginOf(id, At(w0, id)).Ok?)
    ensures result.Ok? ==>
              && turn.place in WorkerOf(w0, k).next
              && var n := WorkerOf(w0, k).next[turn.place];
                 var id := RecordId(turn.place, n);
                 && Exists(w, id)
                 && WorkerOf(w, k).next == WorkerOf(w0, k).next[turn.place := n + 1]
                 && WorkerOf(w, k).stage == (if turn.handled then Committing(id) else Routing(id))
                 && (turn.handled ==> Delivered(w, turn, id))
  {
    if !Enabled(cfg, w0, Receive(k, turn.place)) {
      w, steps := Take(cfg, w0, w0, [], ReceiveFails(k));
      return w, Err(ReceiveError), steps;
    }
    var id := RecordId(turn.place, WorkerOf(w0, k).next[turn.place]);
    var r := At(w0, id);
    w, steps := Take(cfg, w0, w0, [], Receive(k, turn.place));
    if AttemptOf(r).Err? { return w, Err(RetryMetadata), steps; }
    if r.payload.None? { return w, Err(MissingPayload), steps; }
    w, steps := Take(cfg, w0, w, steps, Dispatch(k, turn.handled));
    if !turn.handled && OriginOf(id, r).Err? { return w, Err(RetryMetadata), steps; }
    result := Ok(());
  }

  // The failure router persists its action and succeeds, or returns an error before or after persisting;
  // the loop passes that error on.
  method Route(cfg: RetryConfig, ghost w0: World, w1: World, ghost steps1: seq<Step>, k: nat, turn: Turn)
      returns (w: World, result: Result<(), KafkaError>, ghost steps: seq<Step>)
    requires ValidConfig(cfg) && Runs(cfg, {}, w0, steps1, w1)
    requires WorkerOf(w1, k).stage.Routing? && Exists(w1, WorkerOf(w1, k).stage.id) && Plausible(cfg, turn)
    ensures Runs(cfg, {}, w0, steps, w) && w.committed == w1.committed
    ensures WorkerOf(w, k).next == WorkerOf(w1, k).next
    ensures result == if turn.refused.Some? then Err(turn.refused.value) else Ok(())
    ensures result.Err? ==> WorkerOf(w, k).stage == Stopped(Returned(result.error))
    ensures result.Ok? ==> WorkerOf(w, k).stage == Committing(WorkerOf(w1, k).stage.id)
    ensures result.Ok? ==> exists child :: Child(w, WorkerOf(w1, k).stage.id, child)
  {
    w, steps := w1, steps1;
    ghost var id := WorkerOf(w1, k).stage.id;
    ghost var p := Place(RouteTopic(cfg, At(w1, id)), turn.partition);
    ghost var child := RecordId(p, |Log(w1, p)|);
    if turn.persisted {
      w, steps := Take(cfg, w0, w, steps, Persist(k, turn.partition));
      assert Child(w, id, child);
    }
    ghost var w2 := w;
    w, steps := Take(cfg, w0, w, steps, Acknowledge(k, turn.refused));
    result := if turn.refused.Some? then Err(turn.refused.value) else Ok(());
    assert result.Ok? ==> Log(w, p) == Log(w2, p) && Child(w, id, child);
  }

  // The synchronous commit of the delivered record.
  method CommitTurn(cfg: RetryConfig, ghost w0: World, w1: World, ghost steps1: seq<Step>, k: nat, turn: Turn)
      returns (w: World, result: Result<(), KafkaError>, ghost steps: seq<Step>)
    requires ValidConfig(cfg) && Runs(cfg, {}, w0, steps1, w1)
    requires WorkerOf(w1, k).stage.Committing? && Delivered(w1, turn, WorkerOf(w1, k).stage.id)
    ensures Runs(cfg, {}, w0, steps, w) && Delivered(w, turn, WorkerOf(w1, k).stage.id)
    ensures result.Ok? <==> turn.stored && turn.committed
    ensures result.Err? ==> WorkerOf(w, k).stage == Stopped(Returned(CommitError)) && result.error == CommitError
    ensures result.Ok? ==>
              var id := WorkerOf(w1, k).stage.id;
              && WorkerOf(w, k) == Worker(WorkerOf(w1, k).next, Polling)
              && w.committed == w1.committed[id.place := id.offset + 1]
  {
    var success := turn.stored && turn.committed;
    w, steps := Take(cfg, w0, w1, steps1, Commit(k, turn.stored, success));
    result := if success then Ok(()) else Err(CommitError);
    StepGrows(cfg, w1, Commit(k, turn.stored, success));
    GrowsKeepsDelivered(w1, w, turn, WorkerOf(w1, k).stage.id);
  }

  // Performs one step and extends the trace.
  method Take(cfg: RetryConfig, ghost w0: World, w: World, ghost steps: seq<Step>, s: Step)
      returns (w': World, ghost steps': seq<Step>)
    requires ValidConfig(cfg) && Enabled(cfg, w, s) && !s.Restart? && Runs(cfg, {}, w0, steps, w)
    ensures w' == Apply(cfg, w, s) && Runs(cfg, {}, w0, steps', w')
  {
    w' := Apply(cfg, w, s);
    ghost var end;
    steps', end := Extend(cfg, {}, w0, steps, w, s);
  }

  // What producers and other workers do while this worker waits for a record: those of the steps that
  // are possible.
  method Interlude(cfg: RetryConfig, reenters: set<Ending>, w0: World, k: nat, others: seq<Step>)
      returns (w: World, ghost steps: seq<Step>)
    requires ValidConfig(cfg)
    ensures Runs(cfg, reenters, w0, steps, w) && WorkerOf(w, k) == WorkerOf(w0, k) && Grows(w0, w)
  {
    w, steps := w0, [];
    var i := 0;
    while i < |others|
      invariant 0 <= i <= |others|
      invariant Runs(cfg, reenters, w0, steps, w) && WorkerOf(w, k) == WorkerOf(w0, k)
    {
      if Mover(others[i]) != Some(k) && Enabled(cfg, w, others[i]) && Allowed(reenters, w, others[i]) {
        ghost var end;
        steps, end := Extend(cfg, reenters, w0, steps, w, others[i]);
        w := Apply(cfg, w, others[i]);
      }
      i := i + 1;
    }
    RunGrows(cfg, reenters, w0, steps, w);
  }

  // One served turn: the worlds and the places in the trace where it began and ended.
  datatype Lap = Lap(start: World, end: World, from: nat, to: nat)

  ghost predicate LapOk(cfg: RetryConfig, reenters: set<Ending>, w0: World, steps: seq<Step>, k: nat, turn: Turn,
                        lap: Lap)
    requires ValidConfig(cfg)
  {
    && lap.from <= lap.to <= |steps|
    && Runs(cfg, reenters, w0, steps[..lap.from], lap.start)
    && Runs(cfg, reenters, lap.start, steps[lap.from..lap.to], lap.end)
    && TurnDone(lap.start, lap.end, k, turn)
  }

  ghost predicate LapsOk(cfg: RetryConfig, reenters: set<Ending>, w0: World, steps: seq<Step>, k: nat,
                         turns: seq<Turn>, laps: seq<Lap>)
    requires ValidConfig(cfg)
  {
    |laps| <= |turns| && forall i :: 0 <= i < |laps| ==> LapOk(cfg, reenters, w0, steps, k, turns[i], laps[i])
  }

  lemma LapsExtend(cfg: RetryConfig, reenters: set<Ending>, w0: World, steps: seq<Step>, more: seq<Step>, k: nat,
                   turns: seq<Turn>, laps: seq<Lap>)
    requires ValidConfig(cfg) && LapsOk(cfg, reenters, w0, steps, k, turns, laps)
    ensures LapsOk(cfg, reenters, w0, steps + more, k, turns, laps)
  {
    forall i | 0 <= i < |laps| ensures LapOk(cfg, reenters, w0, steps + more, k, turns[i], laps[i]) {
      var lap := laps[i];
      assert LapOk(cfg, reenters, w0, steps, k, turns[i], lap);
      assert (steps + more)[..lap.from] == steps[..lap.from];
      assert (steps + more)[lap.from..lap.to] == steps[lap.from..lap.to];
    }
  }

  // A turn that begins where the trace ends.
  lemma TurnSplitsTrace(cfg: RetryConfig, reenters: set<Ending>, w0: World, steps: seq<Step>, w: World,
                        turn: seq<Step>, w': World)
    requires ValidConfig(cfg) && Runs(cfg, reenters, w0, steps, w) && Runs(cfg, {}, w, turn, w')
    ensures Runs(cfg, reenters, w0, steps + turn, w')
    ensures Runs(cfg, reenters, w0, (steps + turn)[..|steps|], w)
    ensures Runs(cfg, reenters, w, (steps + turn)[|steps|..], w')
    ensures (steps + turn)[|steps|..|steps + turn|] == (steps + turn)[|steps|..]
  {
    MoreReentries(cfg, {}, reenters, w, turn, w');
    RunsConcat(cfg, reenters, w0, steps, w, turn, w');
    assert (steps + turn)[..|steps|] == steps && (steps + turn)[|steps|..] == turn;
  }

  // The loop is between two turns: `laps` are the turns served so far.
  ghost predicate Serving(cfg: RetryConfig, reenters: set<Ending>, w0: World, k: nat, turns: seq<Turn>,
                          w: World, steps: seq<Step>, laps: seq<Lap>)
    requires ValidConfig(cfg)
  {
    && Runs(cfg, reenters, w0, steps, w)
    && LapsOk(cfg, reenters, w0, steps, k, turns, laps)
    && CleanStop(w0, w, k, turns[..|laps|])
  }

  // The loop has ended with an error: `last` is the world after the first n steps, in which the turn after
  // the laps cannot be served, and the remaining steps are those of that turn.
  ghost predicate StopsIn(cfg: RetryConfig, reenters: set<Ending>, w0: World, k: nat, turns: seq<Turn>,
                          w: World, error: KafkaError, steps: seq<Step>, laps: seq<Lap>, last: World, n: nat)
    requires ValidConfig(cfg)
  {
    && LapsOk(cfg, reenters, w0, steps, k, turns, laps) && |laps| < |turns|
    && CleanStop(w0, last, k, turns[..|laps|]) && !Servable(last, k, turns[|laps|])
    && n <= |steps| && Runs(cfg, reenters, w0, steps[..n], last) && Runs(cfg, reenters, last, steps[n..], w)
    && WorkerOf(w, k).stage == Stopped(Returned(error))
    && (error != CommitError ==> w.committed == last.committed)
  }

  // The interlude before one turn.
  method LetOthersAct(cfg: RetryConfig, reenters: set<Ending>, ghost w0: World, w: World, ghost steps: seq<Step>,
                      k: nat,
                      ghost turns: seq<Turn>, ghost laps: seq<Lap>, others: seq<Step>)
      returns (w': World, ghost steps': seq<Step>)
    requires ValidConfig(cfg) && Serving(cfg, reenters, w0, k, turns, w, steps, laps)
    ensures Serving(cfg, reenters, w0, k, turns, w', steps', laps)
  {
    ghost var more;
    w', more := Interlude(cfg, reenters, w, k, others);
    RunsConcat(cfg, reenters, w0, steps, w, more, w');
    CleanStopKeeps(w0, w, w', k, turns[..|laps|]);
    LapsExtend(cfg, reenters, w0, steps, more, k, turns, laps);
    steps' := steps + more;
  }

  // One turn of the loop.
  method ServeTurn(cfg: RetryConfig, reenters: set<Ending>, ghost w0: World, w: World, ghost steps: seq<Step>, k: nat,
                   turns: seq<Turn>, served: nat, ghost laps: seq<Lap>)
      returns (w': World, result: Result<(), KafkaError>, ghost steps': seq<Step>, ghost laps': seq<Lap>)
    requires ValidConfig(cfg) && Serving(cfg, reenters, w0, k, turns, w, steps, laps)
    requires |laps| == served < |turns| && Plausible(cfg, turns[served])
    ensures Runs(cfg, reenters, w0, steps', w')
    ensures result.Ok? ==> Serving(cfg, reenters, w0, k, turns, w', steps', laps') && |laps'| == served + 1
    ensures result.Err? ==>
              laps' == laps && StopsIn(cfg, reenters, w0, k, turns, w', result.error, steps', laps, w, |steps|)
  {
    ghost var turn;
    w', result, turn := OneTurn(cfg, w, k, turns[served]);
    TurnSplitsTrace(cfg, reenters, w0, steps, w, turn, w');
    LapsExtend(cfg, reenters, w0, steps, turn, k, turns, laps);
    steps', laps' := steps + turn, laps;
    if result.Ok? {
      laps' := laps + [Lap(w, w', |steps|, |steps'|)];
      RunGrows(cfg, {}, w, turn, w');
      CleanStopExtends(w0, w, w', k, turns[..served], turns[served]);
      assert turns[..served + 1] == turns[..served] + [turns[served]];
    }
  }

  // run_with_failure_routing: serves turns until one fails or shutdown wins, while producers and other
  // workers act between turns, and does nothing that is not a run of the step system. Each lap is one
  // served turn, which committed the record it delivered.
  method RunWithFailureRouting(cfg: RetryConfig, subscribed: seq<string>, reenters: set<Ending>, w0: World, k: nat,
                               turns: seq<Turn>, others: seq<seq<Step>>)
      returns (w: World, result: Result<(), KafkaError>, ghost steps: seq<Step>, ghost laps: seq<Lap>,
               ghost last: World, ghost n: nat)
    requires 1 <= cfg.maxDeliveries <= U16_MAX && WorkerOf(w0, k).stage == Polling && |others| == |turns|
    requires forall i :: 0 <= i < |turns| ==> Plausible(cfg, turns[i])
    ensures ValidateFailureRoute(cfg, subscribed).Err? ==> w == w0 && result == ValidateFailureRoute(cfg, subscribed)
    ensures ValidateFailureRoute(cfg, subscribed).Ok? ==> Runs(cfg, reenters, w0, steps, w)
    ensures ValidateFailureRoute(cfg, subscribed).Ok? && result.Ok? ==>
              Serving(cfg, reenters, w0, k, turns, w, steps, laps) && |laps| == |turns|
    ensures ValidateFailureRoute(cfg, subscribed).Ok? && result.Err? ==>
              StopsIn(cfg, reenters, w0, k, turns, w, result.error, steps, laps, last, n)
  {
    w, steps, laps, last, n := w0, [], [], w0, 0;
    result := ValidateFailureRoute(cfg, subscribed);
    if result.Err? { return; }
    var served := 0;
    while served < |turns|
      invariant 0 <= served <= |turns| && |laps| == served && result.Ok?
      invariant Serving(cfg, reenters, w0, k, turns, w, steps, laps)
    {
      w, steps := LetOthersAct(cfg, reenters, w0, w, steps, k, turns, laps, others[served]);
      last, n := w, |steps|;
      w, result, steps, laps := ServeTurn(cfg, reenters, w0, w, steps, k, turns, served, laps);
      if result.Err? { return; }
      served := served + 1;
    }
  }

  // Where the loop leaves the world, no record is lost: whatever happened before it and beside it, if the
  // application re-enters only after safe endings.
  lemma LoopLosesNothing(cfg: RetryConfig, reenters: set<Ending>, before: seq<Step>, w0: World, steps: seq<Step>,
                         w: World, id: RecordId)
    requires ValidConfig(cfg) && Safe(cfg, reenters)
    requires Runs(cfg, reenters, Start, before, w0) && Runs(cfg, reenters, w0, steps, w) && !Waiting(w, id)
    ensures exists path :: Settles(cfg, w, id, path) && |path| <= cfg.maxDeliveries
  {
    RunsConcat(cfg, reenters, Start, before, w0, steps, w);
    NoRecordIsLost(cfg, reenters, before + steps, w, id);
  }
}
