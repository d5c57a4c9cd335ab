// The manual-commit Kafka consumer with failure routing, as a system of steps.
//
// Any number of workers share the broker. Every await point of the receive loop ends one step, so
// the steps of different workers interleave freely, and a worker may fail or crash between any two
// of its own steps. Partitions are logs that only grow; a consumer group keeps one committed offset
// per partition, and each worker keeps its own read position.
module KafkaConsumer {
  import opened Common

  const U16_MAX: nat := 65535

  // ---- failure.rs: the routing decision ----

  datatype RetryAction = Retry(nextAttempt: nat) | DeadLetter

  // `routerErrors` are the errors the failure router may return; its interface allows any.
  datatype RetryConfig = RetryConfig(
    source: string, retry: string, deadLetter: string, maxDeliveries: nat, routerErrors: set<KafkaError>)

  // The topics differ as validate_failure_route_topics demands; max_deliveries is a NonZeroU16.
  predicate ValidConfig(cfg: RetryConfig) {
    && 1 <= cfg.maxDeliveries <= U16_MAX
    && cfg.retry != cfg.source && cfg.deadLetter != cfg.source && cfg.retry != cfg.deadLetter
  }

  function SaturatingIncrement(n: nat): nat {
    if n < U16_MAX then n + 1 else U16_MAX
  }

  function AfterFailure(maxDeliveries: nat, attempt: nat): (action: RetryAction)
    requires maxDeliveries <= U16_MAX
    ensures action.Retry? ==> 2 <= action.nextAttempt <= maxDeliveries && action.nextAttempt == attempt + 1
    ensures action.DeadLetter? <==> attempt == 0 || maxDeliveries <= attempt
  {
    if attempt == 0 || attempt >= maxDeliveries then DeadLetter
    else Retry(SaturatingIncrement(attempt))
  }

  // ---- the broker and its clients ----

  datatype Place = Place(topic: string, partition: nat)

  datatype RecordId = RecordId(place: Place, offset: nat)

  // A header is absent, present once and parsed, or duplicated / unparsable.
  datatype Header<+T> = Absent | Parsed(value: T) | Malformed

  type Blob = seq<nat>

  // `cause` is history: the delivery whose failure wrote this record, or None for outside producers.
  datatype Record = Record(
    payload: Option<Blob>, key: Option<Blob>, attempt: Header<nat>, origin: Header<RecordId>, cause: Option<RecordId>)

  datatype KafkaError =
    | CreateProducer | Readiness | Delivery | CreateConsumer | Subscribe | ReceiveError | MissingPayload | Decode
        | Handler
    | CommitError | GroupMembership | LagSnapshot | LagSnapshotLimitExceeded | RetryTopicNotSubscribed
    | FailureRouteConfiguration | RetryMetadata | FailurePublish | FailureRoute

  // How a run method can end early: it returns an error, or the caller drops its future.
  datatype Ending = Returned(error: KafkaError) | Dropped

  datatype Stage =
    | Polling
    | Handling(id: RecordId)
    | Routing(id: RecordId)
    | Persisted(id: RecordId)
    | Committing(id: RecordId)
    | Stopped(ending: Ending)
    | Down

  datatype Worker = Worker(next: map<Place, nat>, stage: Stage)

  datatype World = World(
    logs: map<Place, seq<Record>>, committed: map<Place, nat>, workers: map<nat, Worker>, handled: set<RecordId>)

  function Log(w: World, p: Place): seq<Record> {
    if p in w.logs then w.logs[p] else []
  }

  function Committed(w: World, p: Place): nat {
    if p in w.committed then w.committed[p] else 0
  }

  function WorkerOf(w: World, k: nat): Worker {
    if k in w.workers then w.workers[k] else Worker(map[], Down)
  }

  predicate Exists(w: World, id: RecordId) {
    id.offset < |Log(w, id.place)|
  }

  function At(w: World, id: RecordId): Record
    requires Exists(w, id)
  {
    Log(w, id.place)[id.offset]
  }

  // retry_attempt: a record without the header is on its first attempt; zero is rejected.
  function AttemptOf(r: Record): Result<nat, ()> {
    match r.attempt
    case Absent => Ok(1)
    case Parsed(n) => if 0 < n <= U16_MAX then Ok(n) else Err(())
    case Malformed => Err(())
  }

  // What the receive loop checks before it hands a record on.
  predicate Deliverable(r: Record) {
    AttemptOf(r).Ok? && r.payload.Some?
  }

  // FailureOrigin::from_message: an earlier origin is preserved, otherwise the record is its own origin.
  function OriginOf(id: RecordId, r: Record): Result<RecordId, ()> {
    match r.origin
    case Absent => Ok(id)
    case Parsed(o) => Ok(o)
    case Malformed => Err(())
  }

  // ---- steps ----

  datatype Step =
    | Produce(place: Place, record: Record)
    | Assign(worker: nat, place: Place)
    | Revoke(worker: nat, place: Place)
    | Receive(worker: nat, place: Place)
    | ReceiveFails(worker: nat)
    | Dispatch(worker: nat, success: bool)
    | Persist(worker: nat, partition: nat)
    | Acknowledge(worker: nat, failure: Option<KafkaError>)
    | Commit(worker: nat, stored: bool, success: bool)
    | Drop(worker: nat)
    | Crash(worker: nat)
    | Restart(worker: nat, inPlace: bool)

  function SetStage(w: World, k: nat, stage: Stage): World {
    w.(workers := w.workers[k := WorkerOf(w, k).(stage := stage)])
  }

  function Append(w: World, p: Place, r: Record): World {
    w.(logs := w.logs[p := Log(w, p) + [r]])
  }

  predicate Enabled(cfg: RetryConfig, w: World, s: Step) {
    match s
    case Produce(p, r) => r.cause == None
    case Assign(k, p) => WorkerOf(w, k).stage != Down && p.topic in {cfg.source, cfg.retry}
    case Revoke(k, p) => true
    case Receive(k, p) =>
      var wk := WorkerOf(w, k);
      wk.stage == Polling && p in wk.next && wk.next[p] < |Log(w, p)|
    case ReceiveFails(k) => WorkerOf(w, k).stage == Polling
    case Dispatch(k, _) => WorkerOf(w, k).stage.Handling?
    case Persist(k, _) => WorkerOf(w, k).stage.Routing? && Exists(w, WorkerOf(w, k).stage.id)
    case Acknowledge(k, failure) =>
      if failure.None? then WorkerOf(w, k).stage.Persisted?
      else failure.value in cfg.routerErrors && (WorkerOf(w, k).stage.Persisted? || WorkerOf(w, k).stage.Routing?)
    case Commit(k, stored, success) => WorkerOf(w, k).stage.Committing? && (success ==> stored)
    case Drop(k) => !WorkerOf(w, k).stage.Stopped? && !WorkerOf(w, k).stage.Down?
    case Crash(k) => true
    case Restart(k, inPlace) => WorkerOf(w, k).stage.Stopped? || (WorkerOf(w, k).stage.Down? && !inPlace)
  }

  // `reenters` holds the endings after which the application may call the run method again on the same
  // consumer. After any other, and after a crash, it starts a new consumer.
  predicate Allowed(reenters: set<Ending>, w: World, s: Step) {
    s.Restart? && s.inPlace ==> WorkerOf(w, s.worker).stage.Stopped? && WorkerOf(w, s.worker).stage.ending in reenters
  }

  // The record KafkaFailurePublisher.route writes for a failed delivery of `id`.
  function RoutedRecord(cfg: RetryConfig, id: RecordId, r: Record): Record
    requires cfg.maxDeliveries <= U16_MAX
  {
    var attempt := if AttemptOf(r).Ok? then AttemptOf(r).value else 0;
    var origin := if OriginOf(id, r).Ok? then OriginOf(id, r).value else id;
    var next := match AfterFailure(cfg.maxDeliveries, attempt) case Retry(n) => n case DeadLetter => attempt;
    Record(r.payload, r.key, Parsed(next), Parsed(origin), Some(id))
  }

  function RouteTopic(cfg: RetryConfig, r: Record): string
    requires cfg.maxDeliveries <= U16_MAX
  {
    var attempt := if AttemptOf(r).Ok? then AttemptOf(r).value else 0;
    if AfterFailure(cfg.maxDeliveries, attempt).Retry? then cfg.retry else cfg.deadLetter
  }

  // A new consumer reads on from the committed offsets, one that is run again from where it stood.
  function Apply(cfg: RetryConfig, w: World, s: Step): World
    requires ValidConfig(cfg) && Enabled(cfg, w, s)
  {
    match s
    case Produce(p, r) => Append(w, p, r)
    case Assign(k, p) =>
      var wk := WorkerOf(w, k);
      w.(workers := w.workers[k := wk.(next := wk.next[p := Committed(w, p)])])
    case Revoke(k, p) =>
      var wk := WorkerOf(w, k);
      w.(workers := w.workers[k := wk.(next := wk.next - {p})])
    case Receive(k, p) =>
      var wk := WorkerOf(w, k);
      var id := RecordId(p, wk.next[p]);
      var r := At(w, id);
      var stage :=
        if AttemptOf(r).Err? then Stopped(Returned(RetryMetadata))
        else if r.payload.None? then Stopped(Returned(MissingPayload))
        else Handling(id);
      w.(workers := w.workers[k := Worker(wk.next[p := wk.next[p] + 1], stage)])
    case ReceiveFails(k) => SetStage(w, k, Stopped(Returned(ReceiveError)))
    case Dispatch(k, success) =>
      var id := WorkerOf(w, k).stage.id;
      if success then SetStage(w.(handled := w.handled + {id}), k, Committing(id))
      else if Exists(w, id) && OriginOf(id, At(w, id)).Ok? then SetStage(w, k, Routing(id))
      else SetStage(w, k, Stopped(Returned(RetryMetadata)))
    case Persist(k, partition) =>
      var id := WorkerOf(w, k).stage.id;
      var r := At(w, id);
      SetStage(Append(w, Place(RouteTopic(cfg, r), partition), RoutedRecord(cfg, id, r)), k, Persisted(id))
    case Acknowledge(k, failure) =>
      SetStage(w, k, if failure.None? then Committing(WorkerOf(w, k).stage.id) else Stopped(Returned(failure.value)))
    case Commit(k, stored, success) =>
      var id := WorkerOf(w, k).stage.id;
      var w1 := if stored then w.(committed := w.committed[id.place := id.offset + 1]) else w;
      SetStage(w1, k, if success then Polling else Stopped(Returned(CommitError)))
    case Drop(k) => SetStage(w, k, Stopped(Dropped))
    case Crash(k) => w.(workers := w.workers[k := Worker(map[], Down)])
    case Restart(k, inPlace) =>
      w.(workers := w.workers[k := Worker(if inPlace then WorkerOf(w, k).next else map[], Polling)])
  }

  const Start: World := World(map[], map[], map[], {})

  // `steps` is a run from `w` to `end`.
  ghost predicate Runs(cfg: RetryConfig, reenters: set<Ending>, w: World, steps: seq<Step>, end: World)
    requires ValidConfig(cfg)
    decreases |steps|
  {
    if steps == [] then end == w
    else
      && Enabled(cfg, w, steps[0]) && Allowed(reenters, w, steps[0])
      && Runs(cfg, reenters, Apply(cfg, w, steps[0]), steps[1..], end)
  }

  // ---- what a delivery leaves behind ----

  ghost predicate Child(w: World, parent: RecordId, child: RecordId) {
    Exists(w, child) && At(w, child).cause == Some(parent)
  }

  // The record was handled, or its failure was written to the retry or dead-letter topic.
  ghost predicate Accounted(w: World, id: RecordId) {
    Exists(w, id) && (id in w.handled || exists child :: Child(w, id, child))
  }

  // A routed record keeps its cause's payload, key and origin, and carries the right attempt.
  ghost predicate RoutedFaithfully(cfg: RetryConfig, w: World, child: RecordId, parent: RecordId)
    requires Exists(w, child)
  {
    && Exists(w, parent)
    && At(w, child).payload == At(w, parent).payload
    && At(w, child).key == At(w, parent).key
    && Deliverable(At(w, parent)) && AttemptOf(At(w, child)).Ok?
    && OriginOf(parent, At(w, parent)).Ok?
    && At(w, child).origin == Parsed(OriginOf(parent, At(w, parent)).value)
    && var a := AttemptOf(At(w, parent)).value;
       if a < cfg.maxDeliveries
       then child.place.topic == cfg.retry && At(w, child).attempt == Parsed(a + 1)
       else child.place.topic == cfg.deadLetter && At(w, child).attempt == Parsed(a)
  }

  ghost predicate Before(w: World, p: Place, n: nat) {
    forall o: nat :: o < n ==> Accounted(w, RecordId(p, o))
  }

  // What is known of a delivery in progress. The offsets before it are only known to be accounted for
  // where re-entering is safe.
  ghost predicate StageOk(safe: bool, w: World, stage: Stage) {
    match stage
    case Handling(id) =>
      Exists(w, id) && (safe ==> Before(w, id.place, id.offset)) && Deliverable(At(w, id))
    case Routing(id) =>
      && Exists(w, id) && (safe ==> Before(w, id.place, id.offset)) && Deliverable(At(w, id))
      && OriginOf(id, At(w, id)).Ok?
    case Persisted(id) => safe ==> Before(w, id.place, id.offset + 1)
    case Committing(id) => safe ==> Before(w, id.place, id.offset + 1)
    case _ => true
  }

  predicate InFlight(stage: Stage, id: RecordId) {
    (stage.Handling? || stage.Routing?) && stage.id == id
  }

  // The endings that can leave a record behind the read position that nothing accounts for.
  function LosingEndings(cfg: RetryConfig): set<Ending> {
    {Returned(RetryMetadata), Returned(MissingPayload), Dropped} + set e | e in cfg.routerErrors :: Returned(e)
  }

  predicate Safe(cfg: RetryConfig, reenters: set<Ending>) {
    reenters !! LosingEndings(cfg)
  }

  predicate Intact(cfg: RetryConfig, stage: Stage) {
    stage.Stopped? ==> stage.ending !in LosingEndings(cfg)
  }

  // Everything a running worker has read is accounted for, except the delivery it is working on.
  ghost predicate ReadOk(w: World, wk: Worker) {
    forall p, o: nat | p in wk.next && o < wk.next[p] ::
      Accounted(w, RecordId(p, o)) || InFlight(wk.stage, RecordId(p, o))
  }

  ghost predicate WorkerOk(cfg: RetryConfig, safe: bool, w: World, wk: Worker) {
    StageOk(safe, w, wk.stage) && (safe && Intact(cfg, wk.stage) ==> ReadOk(w, wk))
  }

  ghost predicate CommittedOk(w: World) {
    forall p :: Before(w, p, Committed(w, p))
  }

  ghost predicate CausesOk(cfg: RetryConfig, w: World) {
    forall c :: Exists(w, c) && At(w, c).cause.Some? ==> RoutedFaithfully(cfg, w, c, At(w, c).cause.value)
  }

  ghost predicate HandledOk(w: World) {
    forall id :: id in w.handled ==> Exists(w, id) && Deliverable(At(w, id))
  }

  ghost predicate Inv(cfg: RetryConfig, safe: bool, w: World) {
    && (safe ==> CommittedOk(w))
    && HandledOk(w)
    && CausesOk(cfg, w)
    && forall k :: k in w.workers ==> WorkerOk(cfg, safe, w, w.workers[k])
  }

  // ---- every step keeps the invariant ----

  // Logs only grow and a handled record stays handled.
  ghost predicate Grows(w: World, w': World) {
    && w.handled <= w'.handled
    && forall p :: Log(w, p) <= Log(w', p)
  }

  lemma GrowsKeepsRecord(w: World, w': World, id: RecordId)
    requires Grows(w, w') && Exists(w, id)
    ensures Exists(w', id) && At(w', id) == At(w, id)
  {
    assert Log(w, id.place) <= Log(w', id.place);
  }

  lemma GrowsKeepsAccounted(w: World, w': World, id: RecordId)
    requires Grows(w, w') && Accounted(w, id)
    ensures Accounted(w', id)
  {
    GrowsKeepsRecord(w, w', id);
    if id !in w.handled {
      var child :| Child(w, id, child);
      GrowsKeepsRecord(w, w', child);
      assert Child(w', id, child);
    }
  }

  lemma GrowsKeepsBefore(w: World, w': World, p: Place, n: nat)
    requires Grows(w, w') && Before(w, p, n)
    ensures Before(w', p, n)
  {
    forall o: nat | o < n ensures Accounted(w', RecordId(p, o)) {
      GrowsKeepsAccounted(w, w', RecordId(p, o));
    }
  }

  lemma GrowsKeepsWorker(cfg: RetryConfig, safe: bool, w: World, w': World, wk: Worker)
    requires Grows(w, w') && WorkerOk(cfg, safe, w, wk)
    ensures WorkerOk(cfg, safe, w', wk)
  {
    if !wk.stage.Polling? && !wk.stage.Stopped? && !wk.stage.Down? {
      var id := wk.stage.id;
      if wk.stage.Handling? || wk.stage.Routing? {
        GrowsKeepsRecord(w, w', id);
        if safe { GrowsKeepsBefore(w, w', id.place, id.offset); }
      } else if safe {
        GrowsKeepsBefore(w, w', id.place, id.offset + 1);
      }
    }
    if safe && Intact(cfg, wk.stage) {
      forall p, o: nat | p in wk.next && o < wk.next[p]
        ensures Accounted(w', RecordId(p, o)) || InFlight(wk.stage, RecordId(p, o))
      {
        if Accounted(w, RecordId(p, o)) { GrowsKeepsAccounted(w, w', RecordId(p, o)); }
      }
    }
  }

  lemma StepGrows(cfg: RetryConfig, w: World, s: Step)
    requires ValidConfig(cfg) && Enabled(cfg, w, s)
    ensures Grows(w, Apply(cfg, w, s))
  {
  }

  // Which worker a step moves; the others keep their state.
  function Mover(s: Step): Option<nat> {
    match s case Produce(_, _) => None case _ => Some(s.worker)
  }

  lemma OthersKeep(cfg: RetryConfig, safe: bool, w: World, s: Step, k: nat)
    requires ValidConfig(cfg) && Enabled(cfg, w, s) && Inv(cfg, safe, w)
    requires Mover(s) != Some(k) && k in Apply(cfg, w, s).workers
    ensures WorkerOk(cfg, safe, Apply(cfg, w, s), Apply(cfg, w, s).workers[k])
  {
    StepGrows(cfg, w, s);
    GrowsKeepsWorker(cfg, safe, w, Apply(cfg, w, s), w.workers[k]);
  }

  lemma WorkerOfOk(cfg: RetryConfig, safe: bool, w: World, k: nat)
    requires Inv(cfg, safe, w)
    ensures WorkerOk(cfg, safe, w, WorkerOf(w, k))
  {
  }

  lemma RoutedIsFaithful(cfg: RetryConfig, safe: bool, w: World, id: RecordId, partition: nat)
    requires ValidConfig(cfg) && CausesOk(cfg, w) && StageOk(safe, w, Routing(id))
    ensures var r := At(w, id);
            var w' := Append(w, Place(RouteTopic(cfg, r), partition), RoutedRecord(cfg, id, r));
            Accounted(w', id) && CausesOk(cfg, w')
  {
    var r := At(w, id);
    var p := Place(RouteTopic(cfg, r), partition);
    var w' := Append(w, p, RoutedRecord(cfg, id, r));
    var child := RecordId(p, |Log(w, p)|);
    assert Grows(w, w');
    GrowsKeepsRecord(w, w', id);
    assert Child(w', id, child);
    forall c | Exists(w', c) && At(w', c).cause.Some?
      ensures RoutedFaithfully(cfg, w', c, At(w', c).cause.value)
    {
      if c != child {
        assert Exists(w, c) && At(w, c) == At(w', c);
        GrowsKeepsRecord(w, w', At(w, c).cause.value);
      }
    }
  }

  lemma ProduceKeepsCauses(cfg: RetryConfig, w: World, p: Place, r: Record)
    requires CausesOk(cfg, w) && r.cause == None
    ensures CausesOk(cfg, Append(w, p, r))
  {
    var w' := Append(w, p, r);
    assert Grows(w, w');
    forall c | Exists(w', c) && At(w', c).cause.Some?
      ensures RoutedFaithfully(cfg, w', c, At(w', c).cause.value)
    {
      assert Exists(w, c) && At(w, c) == At(w', c);
      GrowsKeepsRecord(w, w', At(w, c).cause.value);
    }
  }

  lemma StepKeepsCauses(cfg: RetryConfig, safe: bool, w: World, s: Step)
    requires ValidConfig(cfg) && Enabled(cfg, w, s) && Inv(cfg, safe, w)
    ensures CausesOk(cfg, Apply(cfg, w, s))
  {
    var w' := Apply(cfg, w, s);
    if s.Produce? {
      ProduceKeepsCauses(cfg, w, s.place, s.record);
    } else if s.Persist? {
      WorkerOfOk(cfg, safe, w, s.worker);
      RoutedIsFaithful(cfg, safe, w, WorkerOf(w, s.worker).stage.id, s.partition);
      var r := At(w, WorkerOf(w, s.worker).stage.id);
      var w1 := Append(w, Place(RouteTopic(cfg, r), s.partition), RoutedRecord(cfg, WorkerOf(w, s.worker).stage.id, r));
      SameLogsKeepCauses(cfg, w1, w');
    } else {
      SameLogsKeepCauses(cfg, w, w');
    }
  }

  lemma SameLogsKeepCauses(cfg: RetryConfig, w: World, w': World)
    requires CausesOk(cfg, w) && w'.logs == w.logs
    ensures CausesOk(cfg, w')
  {
    forall c | Exists(w', c) && At(w', c).cause.Some?
      ensures RoutedFaithfully(cfg, w', c, At(w', c).cause.value)
    {
      assert Exists(w, c) && At(w, c) == At(w', c);
    }
  }

  lemma StepKeepsHandled(cfg: RetryConfig, safe: bool, w: World, s: Step)
    requires ValidConfig(cfg) && Enabled(cfg, w, s) && Inv(cfg, safe, w)
    ensures HandledOk(Apply(cfg, w, s))
  {
    var w' := Apply(cfg, w, s);
    StepGrows(cfg, w, s);
    forall id | id in w'.handled ensures Exists(w', id) && Deliverable(At(w', id)) {
      if id !in w.handled { WorkerOfOk(cfg, safe, w, s.worker); }
      GrowsKeepsRecord(w, w', id);
    }
  }

  lemma StepKeepsCommitted(cfg: RetryConfig, safe: bool, w: World, s: Step)
    requires ValidConfig(cfg) && Enabled(cfg, w, s) && Inv(cfg, safe, w)
    ensures safe ==> CommittedOk(Apply(cfg, w, s))
  {
    var w' := Apply(cfg, w, s);
    StepGrows(cfg, w, s);
    forall p | safe ensures Before(w', p, Committed(w', p)) {
      if Committed(w', p) == Committed(w, p) {
        GrowsKeepsBefore(w, w', p, Committed(w, p));
      } else {
        WorkerOfOk(cfg, safe, w, s.worker);
        GrowsKeepsBefore(w, w', p, Committed(w', p));
      }
    }
  }

  // The moving worker, one lemma per group of steps.

  lemma ReceiveKeepsMover(cfg: RetryConfig, safe: bool, w: World, k: nat, p: Place)
    requires ValidConfig(cfg) && Inv(cfg, safe, w) && Enabled(cfg, w, Receive(k, p))
    ensures WorkerOk(cfg, safe, Apply(cfg, w, Receive(k, p)), WorkerOf(Apply(cfg, w, Receive(k, p)), k))
  {
    WorkerOfOk(cfg, safe, w, k);
    var wk := WorkerOf(w, k);
    var w' := Apply(cfg, w, Receive(k, p));
    StepGrows(cfg, w, Receive(k, p));
    GrowsKeepsWorker(cfg, safe, w, w', wk);
    var wk' := WorkerOf(w', k);
    if safe && wk'.stage.Handling? {
      assert Before(w', p, wk.next[p]);
      forall q, o: nat | q in wk'.next && o < wk'.next[q]
        ensures Accounted(w', RecordId(q, o)) || InFlight(wk'.stage, RecordId(q, o))
      {
        assert q != p || o < wk.next[p] || RecordId(q, o) == wk'.stage.id;
      }
    }
  }

  lemma DispatchKeepsMover(cfg: RetryConfig, safe: bool, w: World, k: nat, success: bool)
    requires ValidConfig(cfg) && Inv(cfg, safe, w) && Enabled(cfg, w, Dispatch(k, success))
    ensures var w' := Apply(cfg, w, Dispatch(k, success)); WorkerOk(cfg, safe, w', WorkerOf(w', k))
  {
    WorkerOfOk(cfg, safe, w, k);
    var wk := WorkerOf(w, k);
    var w' := Apply(cfg, w, Dispatch(k, success));
    StepGrows(cfg, w, Dispatch(k, success));
    GrowsKeepsWorker(cfg, safe, w, w', wk);
    if success {
      assert Accounted(w', wk.stage.id);
      FinishDelivery(cfg, safe, w', wk, Committing(wk.stage.id));
    }
  }

  // Once the delivery in flight is accounted for, nothing the worker has read is owed any more.
  lemma FinishDelivery(cfg: RetryConfig, safe: bool, w: World, wk: Worker, stage: Stage)
    requires WorkerOk(cfg, safe, w, wk) && (wk.stage.Handling? || wk.stage.Routing?) && Accounted(w, wk.stage.id)
    requires stage == Committing(wk.stage.id) || stage == Persisted(wk.stage.id)
    ensures WorkerOk(cfg, safe, w, wk.(stage := stage))
  {
    var id := wk.stage.id;
    forall o: nat | safe && o < id.offset + 1 ensures Accounted(w, RecordId(id.place, o)) {
      assert o < id.offset || RecordId(id.place, o) == id;
    }
    forall p, o: nat | safe && p in wk.next && o < wk.next[p] ensures Accounted(w, RecordId(p, o)) {
      assert Accounted(w, RecordId(p, o)) || InFlight(wk.stage, RecordId(p, o));
    }
  }

  lemma PersistKeepsMover(cfg: RetryConfig, safe: bool, w: World, k: nat, partition: nat)
    requires ValidConfig(cfg) && Inv(cfg, safe, w) && Enabled(cfg, w, Persist(k, partition))
    ensures var w' := Apply(cfg, w, Persist(k, partition)); WorkerOk(cfg, safe, w', WorkerOf(w', k))
  {
    WorkerOfOk(cfg, safe, w, k);
    var wk := WorkerOf(w, k);
    var w' := Apply(cfg, w, Persist(k, partition));
    StepGrows(cfg, w, Persist(k, partition));
    GrowsKeepsWorker(cfg, safe, w, w', wk);
    RoutedIsFaithful(cfg, safe, w, wk.stage.id, partition);
    var w1 := Append(w, Place(RouteTopic(cfg, At(w, wk.stage.id)), partition),
                     RoutedRecord(cfg, wk.stage.id, At(w, wk.stage.id)));
    assert Grows(w1, w');
    GrowsKeepsAccounted(w1, w', wk.stage.id);
    FinishDelivery(cfg, safe, w', wk, Persisted(wk.stage.id));
  }

  // A consumer that is run again in place after a safe ending has read nothing it does not account for.
  lemma OtherStepsKeepMover(cfg: RetryConfig, reenters: set<Ending>, w: World, s: Step)
    requires ValidConfig(cfg) && Inv(cfg, Safe(cfg, reenters), w) && Enabled(cfg, w, s) && Allowed(reenters, w, s)
    requires !s.Produce? && !s.Receive? && !s.Dispatch? && !s.Persist?
    ensures var w' := Apply(cfg, w, s); WorkerOk(cfg, Safe(cfg, reenters), w', WorkerOf(w', s.worker))
  {
    var safe := Safe(cfg, reenters);
    WorkerOfOk(cfg, safe, w, s.worker);
    StepGrows(cfg, w, s);
    var w' := Apply(cfg, w, s);
    GrowsKeepsWorker(cfg, safe, w, w', WorkerOf(w, s.worker));
    if s.Assign? && safe {
      GrowsKeepsBefore(w, w', s.place, Committed(w, s.place));
    }
  }

  lemma StepKeepsInv(cfg: RetryConfig, reenters: set<Ending>, w: World, s: Step)
    requires ValidConfig(cfg) && Enabled(cfg, w, s) && Allowed(reenters, w, s) && Inv(cfg, Safe(cfg, reenters), w)
    ensures Inv(cfg, Safe(cfg, reenters), Apply(cfg, w, s))
  {
    var safe := Safe(cfg, reenters);
    var w' := Apply(cfg, w, s);
    StepKeepsCauses(cfg, safe, w, s);
    StepKeepsCommitted(cfg, safe, w, s);
    StepKeepsHandled(cfg, safe, w, s);
    forall k | k in w'.workers ensures WorkerOk(cfg, safe, w', w'.workers[k]) {
      if Mover(s) != Some(k) { OthersKeep(cfg, safe, w, s, k); }
      else if s.Receive? { ReceiveKeepsMover(cfg, safe, w, k, s.place); }
      else if s.Dispatch? { DispatchKeepsMover(cfg, safe, w, k, s.success); }
      else if s.Persist? { PersistKeepsMover(cfg, safe, w, k, s.partition); }
      else { OtherStepsKeepMover(cfg, reenters, w, s); }
    }
  }

  lemma {:induction false} RunKeepsInv(cfg: RetryConfig, reenters: set<Ending>, w: World, steps: seq<Step>,
                                       end: World)
    requires ValidConfig(cfg) && Inv(cfg, Safe(cfg, reenters), w) && Runs(cfg, reenters, w, steps, end)
    ensures Inv(cfg, Safe(cfg, reenters), end)
    decreases |steps|
  {
    if steps != [] {
      StepKeepsInv(cfg, reenters, w, steps[0]);
      RunKeepsInv(cfg, reenters, Apply(cfg, w, steps[0]), steps[1..], end);
    }
  }

  // ---- the conservation theorem ----

  // `path` follows routed copies of `path[0]` through the retry topic.
  ghost predicate RetryPath(cfg: RetryConfig, w: World, path: seq<RecordId>) {
    && path != []
    && (forall i :: 0 <= i < |path| ==> Exists(w, path[i]))
    && forall i :: 0 < i < |path| ==> Child(w, path[i - 1], path[i]) && path[i].place.topic == cfg.retry
  }

  ghost predicate DeadLettered(cfg: RetryConfig, w: World, id: RecordId) {
    exists child :: Child(w, id, child) && child.place.topic == cfg.deadLetter
  }

  // A record that no later commit can pass over without settling it.
  predicate Waiting(w: World, id: RecordId) {
    Committed(w, id.place) <= id.offset
  }

  ghost predicate Settles(cfg: RetryConfig, w: World, id: RecordId, path: seq<RecordId>) {
    && RetryPath(cfg, w, path) && path[0] == id
    && var last := path[|path| - 1]; last in w.handled || DeadLettered(cfg, w, last) || (|path| > 1 && Waiting(w, last))
  }

  // No retry copy continues the chain.
  ghost predicate Complete(cfg: RetryConfig, w: World, path: seq<RecordId>) {
    RetryPath(cfg, w, path) && forall child :: Child(w, path[|path| - 1], child) ==> child.place.topic != cfg.retry
  }

  lemma {:induction false} FollowRetries(cfg: RetryConfig, w: World, id: RecordId) returns (path: seq<RecordId>)
    requires ValidConfig(cfg) && Inv(cfg, true, w) && id.offset < Committed(w, id.place)
    ensures Settles(cfg, w, id, path) && |path| <= cfg.maxDeliveries
    ensures |path| == 1 || (Deliverable(At(w, id)) && AttemptOf(At(w, id)).value + |path| <= cfg.maxDeliveries + 1)
    decreases cfg.maxDeliveries - (if Exists(w, id) && AttemptOf(At(w, id)).Ok? then AttemptOf(At(w, id)).value else 0)
  {
    PassedIsAccounted(cfg, w, id);
    if id in w.handled {
      path := [id];
    } else {
      var child :| Child(w, id, child);
      assert RoutedFaithfully(cfg, w, child, id);
      if child.place.topic == cfg.deadLetter {
        path := [id];
      } else if Waiting(w, child) {
        path := [id, child];
      } else {
        var rest := FollowRetries(cfg, w, child);
        path := [id] + rest;
      }
    }
  }

  lemma PassedIsAccounted(cfg: RetryConfig, w: World, id: RecordId)
    requires Inv(cfg, true, w) && !Waiting(w, id)
    ensures Accounted(w, id)
  {
    assert Before(w, id.place, Committed(w, id.place));
    assert RecordId(id.place, id.offset) == id;
  }

  // No record is lost: in every run that re-enters in place only after safe endings, every record below a
  // committed offset was handled, or was dead-lettered, or has a chain of at most max_deliveries routed
  // copies ending in one that was, or that the group has yet to commit.
  lemma NoRecordIsLost(cfg: RetryConfig, reenters: set<Ending>, steps: seq<Step>, w: World, id: RecordId)
    requires ValidConfig(cfg) && Safe(cfg, reenters) && Runs(cfg, reenters, Start, steps, w) && !Waiting(w, id)
    ensures exists path :: Settles(cfg, w, id, path) && |path| <= cfg.maxDeliveries
  {
    RunKeepsInv(cfg, reenters, Start, steps, w);
    var path := FollowRetries(cfg, w, id);
  }

  // A router that persists and then reports a failure gives one record several chains. In every run,
  // each of them that starts below a committed offset and goes no further ends handled, dead-lettered or
  // waiting to be committed.
  lemma EveryChainSettles(cfg: RetryConfig, reenters: set<Ending>, steps: seq<Step>, w: World, path: seq<RecordId>)
    requires ValidConfig(cfg) && Safe(cfg, reenters) && Runs(cfg, reenters, Start, steps, w)
    requires Complete(cfg, w, path) && !Waiting(w, path[0])
    ensures Settles(cfg, w, path[0], path)
  {
    RunKeepsInv(cfg, reenters, Start, steps, w);
    var last := path[|path| - 1];
    if !Waiting(w, last) { LastIsSettled(cfg, w, path); }
  }

  lemma LastIsSettled(cfg: RetryConfig, w: World, path: seq<RecordId>)
    requires Inv(cfg, true, w) && Complete(cfg, w, path) && !Waiting(w, path[|path| - 1])
    ensures path[|path| - 1] in w.handled || DeadLettered(cfg, w, path[|path| - 1])
  {
    var last := path[|path| - 1];
    PassedIsAccounted(cfg, w, last);
    if last !in w.handled {
      var child :| Child(w, last, child);
      assert RoutedFaithfully(cfg, w, child, last);
    }
  }

  // When the group has caught up on every partition, every chain has really ended, and there is one.
  lemma CaughtUpMeansFinished(cfg: RetryConfig, reenters: set<Ending>, steps: seq<Step>, w: World, id: RecordId)
    requires ValidConfig(cfg) && Safe(cfg, reenters) && Runs(cfg, reenters, Start, steps, w) && Exists(w, id)
    requires forall p: Place :: p.topic in {cfg.source, cfg.retry} ==> Committed(w, p) == |Log(w, p)|
    requires id.place.topic in {cfg.source, cfg.retry}
    ensures forall path: seq<RecordId> :: Complete(cfg, w, path) && path[0] == id ==>
              path[|path| - 1] in w.handled || DeadLettered(cfg, w, path[|path| - 1])
    ensures exists path :: Settles(cfg, w, id, path)
              && (path[|path| - 1] in w.handled || DeadLettered(cfg, w, path[|path| - 1]))
  {
    RunKeepsInv(cfg, reenters, Start, steps, w);
    forall path: seq<RecordId> | Complete(cfg, w, path) && path[0] == id
      ensures path[|path| - 1] in w.handled || DeadLettered(cfg, w, path[|path| - 1])
    {
      assert path[|path| - 1].place.topic in {cfg.source, cfg.retry};
      LastIsSettled(cfg, w, path);
    }
    var path := FollowRetries(cfg, w, id);
  }

  // Every routed record repeats its cause's payload, key and origin, and its attempt is bounded; a
  // dead-lettered cause had used up its deliveries. This needs no condition on re-entering.
  lemma RetriesAreBounded(cfg: RetryConfig, reenters: set<Ending>, steps: seq<Step>, w: World, c: RecordId)
    requires ValidConfig(cfg) && Runs(cfg, reenters, Start, steps, w) && Exists(w, c) && At(w, c).cause.Some?
    ensures RoutedFaithfully(cfg, w, c, At(w, c).cause.value)
    ensures c.place.topic == cfg.retry ==> 2 <= AttemptOf(At(w, c)).value <= cfg.maxDeliveries
  {
    RunKeepsInv(cfg, reenters, Start, steps, w);
  }

  lemma {:induction false} AttemptsAlongChain(cfg: RetryConfig, w: World, path: seq<RecordId>)
    requires ValidConfig(cfg) && CausesOk(cfg, w) && RetryPath(cfg, w, path) && |path| > 1
    ensures AttemptOf(At(w, path[0])).Ok? && AttemptOf(At(w, path[|path| - 1])).Ok?
    ensures AttemptOf(At(w, path[|path| - 1])).value ==
              AttemptOf(At(w, path[0])).value + |path| - 1 <= cfg.maxDeliveries
    decreases |path|
  {
    var n := |path| - 1;
    assert Child(w, path[n - 1], path[n]);
    assert RoutedFaithfully(cfg, w, path[n], path[n - 1]);
    if n > 1 { AttemptsAlongChain(cfg, w, path[..n]); }
  }

  // Along every chain of every run the attempt grows by one per copy and stays within max_deliveries, so
  // no chain, of however many a record has, is longer than max_deliveries.
  lemma EveryChainIsBounded(cfg: RetryConfig, reenters: set<Ending>, steps: seq<Step>, w: World,
                            path: seq<RecordId>)
    requires ValidConfig(cfg) && Runs(cfg, reenters, Start, steps, w) && RetryPath(cfg, w, path) && |path| > 1
    ensures AttemptOf(At(w, path[0])).Ok? && AttemptOf(At(w, path[|path| - 1])).Ok?
    ensures AttemptOf(At(w, path[|path| - 1])).value ==
              AttemptOf(At(w, path[0])).value + |path| - 1 <= cfg.maxDeliveries
    ensures |path| <= cfg.maxDeliveries
  {
    RunKeepsInv(cfg, reenters, Start, steps, w);
    AttemptsAlongChain(cfg, w, path);
  }

  // Committing an offset means every lower offset of that partition is settled, so a record the
  // consumer refuses to deliver (bad attempt header, or no payload) is never passed.
  lemma RefusedRecordBlocks(cfg: RetryConfig, reenters: set<Ending>, steps: seq<Step>, w: World, id: RecordId)
    requires ValidConfig(cfg) && Safe(cfg, reenters) && Runs(cfg, reenters, Start, steps, w) && Exists(w, id)
    requires !Deliverable(At(w, id))
    ensures Waiting(w, id)
  {
    RunKeepsInv(cfg, reenters, Start, steps, w);
    if !Waiting(w, id) {
      PassedIsDeliverable(cfg, w, id);
    }
  }

  lemma PassedIsDeliverable(cfg: RetryConfig, w: World, id: RecordId)
    requires Inv(cfg, true, w) && !Waiting(w, id)
    ensures Exists(w, id) && Deliverable(At(w, id))
  {
    PassedIsAccounted(cfg, w, id);
    if id !in w.handled {
      var child :| Child(w, id, child);
      assert RoutedFaithfully(cfg, w, child, id);
    }
  }

  // ---- putting runs together ----

  lemma Extend(cfg: RetryConfig, reenters: set<Ending>, w0: World, steps: seq<Step>, w: World, s: Step)
      returns (steps': seq<Step>, w': World)
    requires ValidConfig(cfg) && Runs(cfg, reenters, w0, steps, w) && Enabled(cfg, w, s) && Allowed(reenters, w, s)
    ensures steps' == steps + [s] && w' == Apply(cfg, w, s) && Runs(cfg, reenters, w0, steps', w')
  {
    steps', w' := steps + [s], Apply(cfg, w, s);
    assert Runs(cfg, reenters, w', [s][1..], w');
    RunsConcat(cfg, reenters, w0, steps, w, [s], w');
  }

  lemma {:induction false} RunsConcat(cfg: RetryConfig, reenters: set<Ending>, w: World, a: seq<Step>, mid: World,
                                      b: seq<Step>, end: World)
    requires ValidConfig(cfg) && Runs(cfg, reenters, w, a, mid) && Runs(cfg, reenters, mid, b, end)
    ensures Runs(cfg, reenters, w, a + b, end)
    decreases |a|
  {
    if a == [] {
      assert a + b == b;
    } else {
      RunsConcat(cfg, reenters, Apply(cfg, w, a[0]), a[1..], mid, b, end);
      assert (a + b)[1..] == a[1..] + b;
    }
  }

  lemma {:induction false} RunGrows(cfg: RetryConfig, reenters: set<Ending>, w: World, steps: seq<Step>, end: World)
    requires ValidConfig(cfg) && Runs(cfg, reenters, w, steps, end)
    ensures Grows(w, end)
    decreases |steps|
  {
    if steps != [] {
      StepGrows(cfg, w, steps[0]);
      RunGrows(cfg, reenters, Apply(cfg, w, steps[0]), steps[1..], end);
    }
  }

  // Allowing more re-entries only adds runs.
  lemma {:induction false} MoreReentries(cfg: RetryConfig, a: set<Ending>, b: set<Ending>, w: World,
                                         steps: seq<Step>, end: World)
    requires ValidConfig(cfg) && a <= b && Runs(cfg, a, w, steps, end)
    ensures Runs(cfg, b, w, steps, end)
    decreases |steps|
  {
    if steps != [] { MoreReentries(cfg, a, b, Apply(cfg, w, steps[0]), steps[1..], end); }
  }
}
