// The MCP client's session slot, its initialize lock and its no-replay rule.
//
// Any number of initialize, call_tool, list, event-stream and close calls share one client. A step is
// what one call does between two awaits; any call may be dropped after any step.
module McpSession {
  import opened Common

  // Sessions are compared by value, as the client does.
  datatype Session = Session(id: Option<string>, protocolVersion: string, capabilities: string)

  // `recovery` and `resumption` are the attempt limits of automatic session recovery and automatic
  // SSE resumption, None where the feature is off.
  datatype Config = Config(recovery: Option<nat>, resumption: Option<nat>)

  datatype Kind = Initialize | CallTool | OtherRequest | EventStream | Close

  // `attempt` counts the failed handshakes of this call so far; it makes at most `limit`.
  datatype Pc =
    | Begun
    | WaitingLock(recovering: bool)
    | RecoveryCheck
    | Sleeping(attempt: nat, limit: nat)
    | CheckingSlot(attempt: nat, limit: nat)
    | PostingInitialize(attempt: nat, limit: nat)
    | AwaitingInitialize(attempt: nat, limit: nat)
    | PostingInitialized(attempt: nat, limit: nat, session: Session)
    | ClearingNew(attempt: nat, limit: nat, session: Session)
    | Filling(attempt: nat, limit: nat, session: Session)
    | Posting(session: Session)
    | Decoding(session: Session, carriesId: bool, resumed: nat)
    | Getting(session: Session)
    | Deleting(session: Session)
    | ClearingObserved(session: Session, recovers: bool)
    | Finished

  // What a call has exchanged with the server. `established` and `accepted` are about its latest
  // initialize POST: the session the server answered with, and the one whose initialized notification
  // it accepted. `disowned` is the session a 404 or a close last told this call to forget.
  datatype Exchange = Exchange(
    initializePosts: nat, toolCallPosts: nat, otherPosts: nat, gets: nat, deletes: nat,
    established: Option<Session>, accepted: Option<Session>, disowned: Option<Session>)

  datatype Task = Task(kind: Kind, pc: Pc, log: Exchange)

  datatype World = World(config: Config, slot: Option<Session>, lock: Option<nat>, tasks: seq<Task>)

  const Nothing: Exchange := Exchange(0, 0, 0, 0, 0, None, None, None)

  function Start(config: Config): World {
    World(config, None, None, [])
  }

  // How a step comes out; each stage reads the outcomes it can have and takes the others as a failure.
  // `SuccessWithId` is a response whose headers carry a session identifier.
  datatype Outcome =
    | Success | SuccessWithId | NotFound | Failure | Disconnected | NextPage | Handshake(session: Session)

  datatype Step = Begin(kind: Kind) | Advance(task: nat, outcome: Outcome) | Drop(task: nat)

  predicate Enabled(w: World, s: Step) {
    match s
    case Begin(_) => true
    case Drop(t) => t < |w.tasks|
    case Advance(t, _) => t < |w.tasks| && !w.tasks[t].pc.Finished? && (w.tasks[t].pc.WaitingLock? ==> w.lock.None?)
  }

  // A failed handshake: recovery goes to its next attempt, initialize and the last attempt give up.
  function HandshakeFailed(task: Task, attempt: nat, limit: nat): Task {
    task.(pc := if attempt + 1 < limit then Sleeping(attempt + 1, limit) else Finished)
  }

  // initialize, initialize_unlocked and recover_expired_session.
  function HandshakeStep(config: Config, slot: Option<Session>, task: Task, outcome: Outcome): Task
    requires InHandshake(task.pc)
  {
    var log := task.log;
    match task.pc
    case WaitingLock(recovering) => task.(pc := if recovering then RecoveryCheck else CheckingSlot(0, 1))
    case RecoveryCheck =>
      if slot.Some? || config.recovery.None? || config.recovery.value == 0 then task.(pc := Finished)
      else task.(pc := Sleeping(0, config.recovery.value))
    case Sleeping(attempt, limit) => task.(pc := CheckingSlot(attempt, limit))
    case CheckingSlot(attempt, limit) => task.(pc := if slot.Some? then Finished else PostingInitialize(attempt, limit))
    case PostingInitialize(attempt, limit) =>
      var sent := task.(log := log.(initializePosts := log.initializePosts + 1, established := None, accepted := None));
      if outcome.Success? then sent.(pc := AwaitingInitialize(attempt, limit))
      else HandshakeFailed(sent, attempt, limit)
    case AwaitingInitialize(attempt, limit) =>
      (match outcome
       case Handshake(session) =>
         task.(pc := PostingInitialized(attempt, limit, session), log := log.(established := Some(session)))
       case Disconnected => task.(log := log.(gets := log.gets + 1))
       case _ => HandshakeFailed(task, attempt, limit))
    case PostingInitialized(attempt, limit, session) =>
      var sent := log.(otherPosts := log.otherPosts + 1);
      if outcome.Success? then task.(pc := Filling(attempt, limit, session), log := sent.(accepted := Some(session)))
      else if outcome.NotFound? && session.id.Some? then
        task.(pc := ClearingNew(attempt, limit, session), log := sent.(disowned := Some(session)))
      else HandshakeFailed(task.(log := sent), attempt, limit)
    case ClearingNew(attempt, limit, session) => HandshakeFailed(task, attempt, limit)
    case Filling(_, _, session) => task.(pc := Finished)
  }

  // The call was told that its session is gone, or has closed it.
  function Forget(task: Task, log: Exchange, session: Session, recovers: bool): Task {
    task.(pc := ClearingObserved(session, recovers), log := log.(disowned := Some(session)))
  }

  // call_tool, list_tools, open_server_event_stream and close_session. A session without an identifier
  // is closed without a request; it expires only where a resumption sends the identifier that the
  // response being read carried.
  function RequestStep(config: Config, slot: Option<Session>, task: Task, outcome: Outcome): Task
    requires !InHandshake(task.pc)
  {
    var log := task.log;
    match task.pc
    case Begun =>
      if task.kind.Initialize? then task.(pc := WaitingLock(false))
      else if slot.None? then task.(pc := Finished)
      else if task.kind.EventStream? then task.(pc := Getting(slot.value))
      else if !task.kind.Close? then task.(pc := Posting(slot.value))
      else if slot.value.id.None? then Forget(task, log, slot.value, false)
      else task.(pc := Deleting(slot.value))
    case Posting(session) =>
      var sent :=
        if task.kind.CallTool? then log.(toolCallPosts := log.toolCallPosts + 1)
        else log.(otherPosts := log.otherPosts + 1);
      if outcome.Success? || outcome.SuccessWithId? then
        task.(pc := Decoding(session, session.id.Some? || outcome.SuccessWithId?, 0), log := sent)
      else if outcome.NotFound? && session.id.Some? then Forget(task, sent, session, true)
      else task.(pc := Finished, log := sent)
    case Decoding(session, carriesId, resumed) =>
      if outcome.NextPage? && task.kind.OtherRequest? then task.(pc := Posting(session))
      else if && (outcome.Disconnected? || outcome.NotFound?)
              && config.resumption.Some? && resumed < config.resumption.value
      then
        var sent := log.(gets := log.gets + 1);
        if outcome.NotFound? && carriesId then Forget(task, sent, session, true)
        else if outcome.NotFound? then task.(pc := Finished, log := sent)
        else task.(pc := Decoding(session, carriesId, resumed + 1), log := sent)
      else task.(pc := Finished)
    case Getting(session) =>
      var sent := log.(gets := log.gets + 1);
      if outcome.Success? then task.(log := sent)
      else if outcome.NotFound? && session.id.Some? then Forget(task, sent, session, false)
      else task.(pc := Finished, log := sent)
    case Deleting(session) =>
      var sent := log.(deletes := log.deletes + 1);
      if outcome.Success? || outcome.NotFound? then Forget(task, sent, session, false)
      else task.(pc := Finished, log := sent)
    case ClearingObserved(session, recovers) =>
      task.(pc := if recovers && config.recovery.Some? then WaitingLock(true) else Finished)
    case Finished => task
  }

  predicate InHandshake(pc: Pc) {
    pc.WaitingLock? || HoldsLock(pc)
  }

  predicate HoldsLock(pc: Pc) {
    pc.RecoveryCheck? || pc.Sleeping? || pc.CheckingSlot? || SawEmpty(pc)
  }

  // Past the empty check of initialize_unlocked.
  predicate SawEmpty(pc: Pc) {
    pc.PostingInitialize? || pc.AwaitingInitialize? || pc.PostingInitialized? || pc.ClearingNew? || pc.Filling?
  }

  function TaskStep(w: World, t: nat, outcome: Outcome): Task
    requires t < |w.tasks|
  {
    if InHandshake(w.tasks[t].pc) then HandshakeStep(w.config, w.slot, w.tasks[t], outcome)
    else RequestStep(w.config, w.slot, w.tasks[t], outcome)
  }

  // What a step does to the slot: it is filled at the end of a handshake and cleared if current.
  function SlotStep(slot: Option<Session>, pc: Pc): Option<Session> {
    match pc
    case Filling(_, _, session) => Some(session)
    case ClearingNew(_, _, session) => if slot == Some(session) then None else slot
    case ClearingObserved(session, _) => if slot == Some(session) then None else slot
    case _ => slot
  }

  // The lock guard lives as long as the handshake of the call that holds it.
  function LockStep(lock: Option<nat>, t: nat, pc: Pc): Option<nat> {
    if HoldsLock(pc) then Some(t) else if lock == Some(t) then None else lock
  }

  function Apply(w: World, s: Step): World
    requires Enabled(w, s)
  {
    match s
    case Begin(kind) => w.(tasks := w.tasks + [Task(kind, Begun, Nothing)])
    case Drop(t) => w.(tasks := w.tasks[t := w.tasks[t].(pc := Finished)], lock := LockStep(w.lock, t, Finished))
    case Advance(t, outcome) =>
      var task := TaskStep(w, t, outcome);
      w.(tasks := w.tasks[t := task], slot := SlotStep(w.slot, w.tasks[t].pc), lock := LockStep(w.lock, t, task.pc))
  }

  ghost predicate Runs(w: World, steps: seq<Step>, end: World)
    decreases |steps|
  {
    if steps == [] then w == end
    else Enabled(w, steps[0]) && Runs(Apply(w, steps[0]), steps[1..], end)
  }

  // ---- the invariant ----

  function AttemptLimit(config: Config): nat {
    if config.recovery.Some? && config.recovery.value > 1 then config.recovery.value else 1
  }

  // The number of handshakes a call at this stage may have started, within the limit.
  predicate AttemptsOk(config: Config, pc: Pc, posts: nat) {
    if pc.Sleeping? || pc.CheckingSlot? || pc.PostingInitialize?
    then posts <= pc.attempt < pc.limit <= AttemptLimit(config)
    else if SawEmpty(pc) then posts <= pc.attempt + 1 <= pc.limit <= AttemptLimit(config)
    else if pc.Finished? then posts <= AttemptLimit(config)
    else posts == 0
  }

  // What a call at this stage has heard from the server and sent to it.
  predicate TaskOk(config: Config, task: Task) {
    && (task.pc.PostingInitialized? || task.pc.Filling? ==> task.log.established == Some(task.pc.session))
    && (task.pc.Filling? ==> task.log.accepted == Some(task.pc.session))
    && (task.pc.ClearingNew? || task.pc.ClearingObserved? ==> task.log.disowned == Some(task.pc.session))
    && task.log.toolCallPosts <= (if task.kind.CallTool? && !task.pc.Begun? && !task.pc.Posting? then 1 else 0)
    && AttemptsOk(config, task.pc, task.log.initializePosts)
  }

  ghost predicate TaskInv(w: World, t: nat)
    requires t < |w.tasks|
  {
    && (HoldsLock(w.tasks[t].pc) <==> w.lock == Some(t))
    && (SawEmpty(w.tasks[t].pc) ==> w.slot.None?)
    && TaskOk(w.config, w.tasks[t])
  }

  ghost predicate Inv(w: World) {
    && (forall t :: 0 <= t < |w.tasks| ==> TaskInv(w, t))
    && (w.lock.Some? ==> w.lock.value < |w.tasks|)
  }

  lemma HandshakeKeeps(config: Config, slot: Option<Session>, task: Task, outcome: Outcome)
    requires TaskOk(config, task) && InHandshake(task.pc)
    ensures TaskOk(config, HandshakeStep(config, slot, task, outcome))
  {
    if task.pc.PostingInitialize? || task.pc.AwaitingInitialize? {
      FirstHalfKeeps(config, slot, task, outcome);
    } else if task.pc.PostingInitialized? {
      SecondHalfKeeps(config, slot, task, outcome);
    }
  }

  lemma FirstHalfKeeps(config: Config, slot: Option<Session>, task: Task, outcome: Outcome)
    requires TaskOk(config, task) && (task.pc.PostingInitialize? || task.pc.AwaitingInitialize?)
    ensures TaskOk(config, HandshakeStep(config, slot, task, outcome))
  {
  }

  lemma SecondHalfKeeps(config: Config, slot: Option<Session>, task: Task, outcome: Outcome)
    requires TaskOk(config, task) && task.pc.PostingInitialized?
    ensures TaskOk(config, HandshakeStep(config, slot, task, outcome))
  {
  }

  lemma RequestKeeps(config: Config, slot: Option<Session>, task: Task, outcome: Outcome)
    requires TaskOk(config, task) && !InHandshake(task.pc)
    ensures TaskOk(config, RequestStep(config, slot, task, outcome))
    ensures !HoldsLock(RequestStep(config, slot, task, outcome).pc)
  {
  }

  lemma MoverKeeps(w: World, t: nat, outcome: Outcome)
    requires t < |w.tasks| && TaskInv(w, t) && Enabled(w, Advance(t, outcome))
    ensures TaskInv(Apply(w, Advance(t, outcome)), t)
    ensures w.lock == Some(t) || w.lock.None? || Apply(w, Advance(t, outcome)).lock == w.lock
    ensures w.tasks[t].pc.Filling? ==> w.lock == Some(t)
  {
    if InHandshake(w.tasks[t].pc) {
      HandshakeKeeps(w.config, w.slot, w.tasks[t], outcome);
    } else {
      RequestKeeps(w.config, w.slot, w.tasks[t], outcome);
    }
  }

  // Filling the slot needs the lock, so it cannot happen behind another call's empty check.
  lemma StepKeepsInv(w: World, s: Step)
    requires Inv(w) && Enabled(w, s)
    ensures Inv(Apply(w, s))
  {
    var w' := Apply(w, s);
    if !s.Begin? { assert TaskInv(w, s.task); }
    if s.Advance? { MoverKeeps(w, s.task, s.outcome); }
    forall u | 0 <= u < |w'.tasks| ensures TaskInv(w', u) {
      if u < |w.tasks| { assert TaskInv(w, u); }
    }
  }

  lemma {:induction false} RunKeepsInv(w: World, steps: seq<Step>, end: World)
    requires Inv(w) && Runs(w, steps, end)
    ensures Inv(end)
    decreases |steps|
  {
    if steps != [] {
      StepKeepsInv(w, steps[0]);
      RunKeepsInv(Apply(w, steps[0]), steps[1..], end);
    }
  }

  // ---- main results ----

  ghost predicate Reachable(config: Config, w: World) {
    exists steps :: Runs(Start(config), steps, w)
  }

  lemma ReachableInv(config: Config, w: World)
    requires Reachable(config, w)
    ensures Inv(w)
  {
    var steps :| Runs(Start(config), steps, w);
    RunKeepsInv(Start(config), steps, w);
  }

  // Whenever the slot changes, it is filled from empty by the holder of the initialize lock, whose latest
  // handshake established and confirmed exactly that session, or it is emptied by a call that was told
  // to forget exactly the session in it. One session never replaces another.
  lemma SlotDiscipline(config: Config, w: World, s: Step)
    requires Reachable(config, w) && Enabled(w, s) && Apply(w, s).slot != w.slot
    ensures s.Advance?
    ensures match Apply(w, s).slot
            case Some(session) =>
              && w.slot.None? && w.lock == Some(s.task)
              && w.tasks[s.task].log.established == Some(session) && w.tasks[s.task].log.accepted == Some(session)
            case None => w.tasks[s.task].log.disowned == w.slot
  {
    ReachableInv(config, w);
    assert TaskInv(w, s.task);
  }

  // From the empty check of a handshake to its end the slot stays empty, so at most one call is in a
  // handshake and none starts while a session is there.
  lemma HandshakesExcludeEachOther(config: Config, w: World, t: nat, u: nat)
    requires Reachable(config, w) && t < |w.tasks| && u < |w.tasks| && SawEmpty(w.tasks[t].pc)
    ensures w.slot.None? && (SawEmpty(w.tasks[u].pc) ==> t == u)
  {
    ReachableInv(config, w);
    assert TaskInv(w, t) && TaskInv(w, u);
  }

  // No replay: whatever expires, recovers or resumes, call_tool sends its tools/call POST at most once,
  // nothing else sends one, and no call starts more handshakes than recovery allows.
  lemma NoReplay(config: Config, w: World, t: nat)
    requires Reachable(config, w) && t < |w.tasks|
    ensures w.tasks[t].log.toolCallPosts <= if w.tasks[t].kind.CallTool? then 1 else 0
    ensures w.tasks[t].log.initializePosts <= AttemptLimit(config)
  {
    var steps :| Runs(Start(config), steps, w);
    RunKeepsInv(Start(config), steps, w);
    RunKeepsConfig(Start(config), steps, w);
    assert TaskInv(w, t);
  }

  lemma {:induction false} RunKeepsConfig(w: World, steps: seq<Step>, end: World)
    requires Runs(w, steps, end)
    ensures end.config == w.config
    decreases |steps|
  {
    if steps != [] { RunKeepsConfig(Apply(w, steps[0]), steps[1..], end); }
  }

  // ---- the client's own methods ----

  // The server's side of one handshake: the session in its initialize reply, None if that is unusable,
  // and what became of the initialized notification.
  datatype HandshakeReply = HandshakeReply(session: Option<Session>, confirmation: Outcome)

  predicate Completes(reply: HandshakeReply) {
    reply.session.Some? && reply.confirmation.Success?
  }

  // The session of the first handshake to complete.
  function FirstSession(replies: seq<HandshakeReply>): Option<Session> {
    if replies == [] then None
    else
      var before, last := FirstSession(replies[..|replies| - 1]), replies[|replies| - 1];
      if before.Some? then before else if Completes(last) then last.session else None
  }

  class McpHttpClient {
    var session: Option<Session>
    var nextRequestId: nat

    constructor ()
      ensures session == None && nextRequestId == 0
    {
      session, nextRequestId := None, 0;
    }

    // clear_session_if_current
    method ClearSessionIfCurrent(current: Session)
      modifies this
      ensures session == SlotStep(old(session), ClearingObserved(current, false)) && nextRequestId == old(nextRequestId)
    {
      if session == Some(current) { session := None; }
    }

    // initialize_unlocked, with the initialize lock held.
    method InitializeUnlocked(reply: HandshakeReply) returns (ok: bool)
      modifies this
      ensures ok <==> old(session).Some? || Completes(reply)
      ensures session == if old(session).Some? then old(session) else if ok then reply.session else None
      ensures nextRequestId == old(nextRequestId) + if old(session).Some? then 0 else 1
    {
      if session.Some? { return true; }
      nextRequestId := nextRequestId + 1;
      if reply.session.None? { return false; }
      if !reply.confirmation.Success? {
        if reply.confirmation.NotFound? && reply.session.value.id.Some? { ClearSessionIfCurrent(reply.session.value); }
        return false;
      }
      session := reply.session;
      return true;
    }

    // recover_expired_session, with the initialize lock held: at most `recovery` handshakes, stopping at
    // the first to complete. A session another call put there is kept.
    method RecoverExpiredSession(recovery: Option<nat>, replies: seq<HandshakeReply>)
      requires recovery.Some? ==> |replies| == recovery.value
      modifies this
      ensures recovery.None? || old(session).Some? ==> session == old(session) && nextRequestId == old(nextRequestId)
      ensures recovery.Some? && old(session).None? ==>
                && session == FirstSession(replies) && nextRequestId <= recovery.value
                && (session.None? ==> nextRequestId == recovery.value)
    {
      if recovery.None? || session.Some? { return; }
      nextRequestId := 0;
      var attempt := 0;
      while attempt < recovery.value
        invariant 0 <= attempt <= recovery.value && nextRequestId == attempt
        invariant session.None? && FirstSession(replies[..attempt]).None?
      {
        var done := InitializeUnlocked(replies[attempt]);
        assert replies[..attempt + 1][..attempt] == replies[..attempt];
        if done {
          FirstSessionStays(replies, attempt + 1);
          return;
        }
        attempt := attempt + 1;
      }
      assert replies[..attempt] == replies;
    }
  }

  lemma {:induction false} FirstSessionStays(replies: seq<HandshakeReply>, n: nat)
    requires n <= |replies| && FirstSession(replies[..n]).Some?
    ensures FirstSession(replies) == FirstSession(replies[..n])
    decreases |replies|
  {
    if n == |replies| {
      assert replies[..n] == replies;
    } else {
      var front := replies[..|replies| - 1];
      assert front[..n] == replies[..n];
      FirstSessionStays(front, n);
    }
  }
}
