// The reply to one request over an SSE response that may be resumed: several bodies, one byte budget.
module SseResumption {
  import opened Common
  import opened SseFrames
  import opened SseParser
  import opened SseReader
  import opened McpEventStream

  datatype Body = Body(contentLength: Option<nat>, chunks: seq<Bytes>)

  // The n-th GET with Last-Event-ID: the new response body, or the error of the request.
  type Server = nat -> Result<Body, McpError>

  function Stream(body: Body): Bytes {
    Flatten(body.chunks)
  }

  function MaxAttempts(policy: Option<Recovery>): nat {
    if policy.Some? then policy.value.maxAttempts else 0
  }

  function ReadBody(judge: Judge, budget: nat, cursor: Cursor, body: Body): Outcome {
    if body.contentLength.Some? && body.contentLength.value > budget then Failed(ResponseTooLarge)
    else Consume(judge, budget, [], cursor, body.chunks)
  }

  // Doubling from the initial backoff, capped at the maximum.
  function Backoff(r: Recovery, attempts: nat): nat {
    if attempts == 0 then r.initialBackoff else Min(2 * Backoff(r, attempts - 1), r.maxBackoff)
  }

  lemma {:induction false} BackoffIsExponential(r: Recovery, attempts: nat)
    requires ValidRecovery(r)
    ensures Backoff(r, attempts) == Min(r.initialBackoff * Pow2(attempts), r.maxBackoff)
    decreases attempts
  {
    if attempts > 0 {
      BackoffIsExponential(r, attempts - 1);
      Doubling(r.initialBackoff, attempts - 1);
    }
  }

  // How long to wait before resumption number `attempts`, or why there is none.
  function Wait(policy: Option<Recovery>, cursor: Cursor, attempts: nat): Result<nat, McpError> {
    if policy.None? || cursor.lastEventId.None? || attempts >= policy.value.maxAttempts then Err(SseStreamTerminated)
    else
      var delay := if cursor.retryDelay.Some? then cursor.retryDelay.value else Backoff(policy.value, attempts);
      if delay > policy.value.maxBackoff then Err(SseRetryLimit) else Ok(delay)
  }

  function Left(budget: nat, body: Body): nat {
    if |Stream(body)| <= budget then budget - |Stream(body)| else 0
  }

  // The answer when `budget` bytes and the attempts from `attempts` on are left.
  function Answer(judge: Judge, policy: Option<Recovery>, server: Server, budget: nat, cursor: Cursor, body: Body,
                  attempts: nat)
    : Result<Bytes, McpError>
    decreases MaxAttempts(policy) - attempts
  {
    match ReadBody(judge, budget, cursor, body)
    case Received(value) => Ok(value)
    case Failed(error) => Err(error)
    case Disconnected(next) =>
      match Wait(policy, next, attempts)
      case Err(error) => Err(error)
      case Ok(_) =>
        match server(attempts)
        case Err(error) => Err(error)
        case Ok(more) => Answer(judge, policy, server, Left(budget, body), next, more, attempts + 1)
  }

  lemma AnswerGoesOn(judge: Judge, policy: Option<Recovery>, server: Server, budget: nat, cursor: Cursor, body: Body,
                     attempts: nat, next: Cursor, more: Body)
    requires ReadBody(judge, budget, cursor, body) == Disconnected(next)
    requires Wait(policy, next, attempts).Ok? && server(attempts) == Ok(more)
    ensures Answer(judge, policy, server, budget, cursor, body, attempts) ==
            Answer(judge, policy, server, Left(budget, body), next, more, attempts + 1)
  {
  }

  lemma AnswerDecided(judge: Judge, policy: Option<Recovery>, server: Server, budget: nat, cursor: Cursor, body: Body,
                      attempts: nat)
    ensures var answer := Answer(judge, policy, server, budget, cursor, body, attempts);
            var outcome := ReadBody(judge, budget, cursor, body);
            && (outcome.Received? ==> answer == Ok(outcome.value))
            && (outcome.Failed? ==> answer == Err(outcome.error))
            && (outcome.Disconnected? && Wait(policy, outcome.cursor, attempts).Err? ==>
                  answer == Err(Wait(policy, outcome.cursor, attempts).error))
            && (outcome.Disconnected? && Wait(policy, outcome.cursor, attempts).Ok? && server(attempts).Err? ==>
                  answer == Err(server(attempts).error))
  {
  }

  // ---- the code ----

  method NextWait(policy: Option<Recovery>, cursor: Cursor, attempts: nat) returns (delay: Result<nat, McpError>)
    requires policy.Some? ==> ValidRecovery(policy.value)
    ensures delay == Wait(policy, cursor, attempts)
    ensures delay.Ok? ==> policy.Some? && attempts < policy.value.maxAttempts && delay.value <= policy.value.maxBackoff
  {
    if policy.None? || cursor.lastEventId.None? || attempts >= policy.value.maxAttempts {
      return Err(SseStreamTerminated);
    }
    var wait;
    if cursor.retryDelay.Some? { wait := cursor.retryDelay.value; } else { wait := DelayFor(policy.value, attempts); }
    BackoffIsExponential(policy.value, attempts);
    if wait > policy.value.maxBackoff { return Err(SseRetryLimit); }
    return Ok(wait);
  }

  // How many bytes of a body are counted.
  function BodyBytes(judge: Judge, budget: nat, cursor: Cursor, body: Body): nat {
    if body.contentLength.Some? && body.contentLength.value > budget then 0
    else Taken(judge, budget, [], cursor, body.chunks)
  }

  // One body as it was read: where the cursor stood and what was left of the limit when it began.
  datatype Visit = Visit(cursor: Cursor, budget: nat, body: Body)

  // A body ended undecided, within its budget; one sleep later GET number i brought the next one, which may
  // use what is left.
  ghost predicate Follows(judge: Judge, policy: Option<Recovery>, server: Server, visit: Visit, next: Visit, i: nat,
                          sleep: nat) {
    && ReadBody(judge, visit.budget, visit.cursor, visit.body) == Disconnected(next.cursor)
    && visit.budget == |Stream(visit.body)| + next.budget
    && Wait(policy, next.cursor, i) == Ok(sleep)
    && server(i) == Ok(next.body)
  }

  ghost predicate Link(judge: Judge, policy: Option<Recovery>, server: Server, visits: seq<Visit>, sleeps: seq<nat>,
                       i: nat)
    requires i + 1 < |visits| && i < |sleeps|
  {
    Follows(judge, policy, server, visits[i], visits[i + 1], i, sleeps[i])
  }

  // The bodies read so far, from the first response on; all but the last ended undecided.
  ghost predicate Visited(judge: Judge, policy: Option<Recovery>, server: Server, limit: nat, first: Body,
                          visits: seq<Visit>, sleeps: seq<nat>) {
    && visits != [] && visits[0] == Visit(Cursor(None, None), limit, first)
    && |sleeps| >= |visits| - 1
    && forall i :: 0 <= i < |visits| - 1 ==> Link(judge, policy, server, visits, sleeps, i)
  }

  // How the last body ended the exchange: it decided, or it could not be resumed, or the GET that was to
  // resume it failed. `bytes` counts every body before it whole.
  ghost predicate Concluded(judge: Judge, policy: Option<Recovery>, server: Server, limit: nat, visits: seq<Visit>,
                            sleeps: seq<nat>, bytes: nat, result: Result<Bytes, McpError>)
    requires visits != []
  {
    var last := visits[|visits| - 1];
    var outcome := ReadBody(judge, last.budget, last.cursor, last.body);
    && bytes == limit - last.budget + BodyBytes(judge, last.budget, last.cursor, last.body)
    && EndsWith(policy, server, outcome, |visits| - 1, sleeps, result)
  }

  // The bytes of bodies that were read to their end.
  function Streamed(visits: seq<Visit>): nat {
    if visits == [] then 0 else Streamed(visits[..|visits| - 1]) + |Stream(visits[|visits| - 1].body)|
  }

  // What is left for a body is the limit less the bodies before it.
  lemma {:induction false} BudgetIsWhatIsLeft(judge: Judge, policy: Option<Recovery>, server: Server, limit: nat,
                                              first: Body, visits: seq<Visit>, sleeps: seq<nat>, k: nat)
    requires Visited(judge, policy, server, limit, first, visits, sleeps) && k < |visits|
    ensures visits[k].budget + Streamed(visits[..k]) == limit
    decreases k
  {
    if k > 0 {
      BudgetIsWhatIsLeft(judge, policy, server, limit, first, visits, sleeps, k - 1);
      assert Link(judge, policy, server, visits, sleeps, k - 1);
      assert visits[..k][..k - 1] == visits[..k - 1];
    }
  }

  ghost predicate EndsWith(policy: Option<Recovery>, server: Server, outcome: Outcome, n: nat, sleeps: seq<nat>,
                           result: Result<Bytes, McpError>) {
    if outcome.Received? then |sleeps| == n && result == Ok(outcome.value)
    else if outcome.Failed? then |sleeps| == n && result == Err(outcome.error)
    else
      var wait := Wait(policy, outcome.cursor, n);
      if wait.Err? then |sleeps| == n && result == Err(wait.error)
      else |sleeps| == n + 1 && sleeps[n] == wait.value && server(n).Err? && result == Err(server(n).error)
  }

  // One turn of sse_response: reads a body and, if that ends undecided, waits and sends the next GET.
  method OneBody(judge: Judge, limit: nat, policy: Option<Recovery>, server: Server, state: SseStreamState, body: Body,
                 attempts: nat)
      returns (decided: Option<Result<Bytes, McpError>>, waited: Option<nat>, more: Body)
    requires (policy.Some? ==> ValidRecovery(policy.value)) && state.totalBytes <= limit && state.buffer == []
    modifies state
    ensures old(state.totalBytes) <= state.totalBytes <= limit
    ensures state.totalBytes == old(state.totalBytes)
                                + BodyBytes(judge, limit - old(state.totalBytes), old(state.cursor), body)
    ensures waited.Some? ==> attempts < MaxAttempts(policy) && policy.Some? && waited.value <= policy.value.maxBackoff
    ensures decided.Some? ==>
              EndsAt(policy, server, ReadBody(judge, limit - old(state.totalBytes), old(state.cursor), body), attempts,
                     waited, decided.value)
    ensures decided.None? ==>
              && waited.Some? && state.buffer == [] && state.totalBytes == old(state.totalBytes) + |Stream(body)|
              && ReadBody(judge, limit - old(state.totalBytes), old(state.cursor), body) == Disconnected(state.cursor)
              && Wait(policy, state.cursor, attempts) == Ok(waited.value) && server(attempts) == Ok(more)
  {
    decided, waited, more := None, None, body;
    var outcome := ConsumeSseResponse(judge, limit, body.contentLength, body.chunks, state);
    if outcome.Received? { return Some(Ok(outcome.value)), waited, more; }
    if outcome.Failed? { return Some(Err(outcome.error)), waited, more; }
    var delay := NextWait(policy, state.cursor, attempts);
    if delay.Err? { return Some(Err(delay.error)), waited, more; }
    waited := Some(delay.value);
    var response := server(attempts);
    if response.Err? { return Some(Err(response.error)), waited, more; }
    more := response.value;
  }

  // A body that ends the exchange, and whether a GET was sent first.
  ghost predicate EndsAt(policy: Option<Recovery>, server: Server, outcome: Outcome, attempts: nat, waited: Option<nat>,
                         result: Result<Bytes, McpError>) {
    if outcome.Received? then waited == None && result == Ok(outcome.value)
    else if outcome.Failed? then waited == None && result == Err(outcome.error)
    else
      var wait := Wait(policy, outcome.cursor, attempts);
      if wait.Err? then waited == None && result == Err(wait.error)
      else waited == Some(wait.value) && server(attempts).Err? && result == Err(server(attempts).error)
  }

  lemma VisitedOneMore(judge: Judge, policy: Option<Recovery>, server: Server, limit: nat, first: Body,
                       visits: seq<Visit>, sleeps: seq<nat>, next: Visit, delay: nat)
    requires Visited(judge, policy, server, limit, first, visits, sleeps) && |sleeps| == |visits| - 1
    requires Follows(judge, policy, server, visits[|visits| - 1], next, |visits| - 1, delay)
    ensures Visited(judge, policy, server, limit, first, visits + [next], sleeps + [delay])
  {
    var more, longer := visits + [next], sleeps + [delay];
    forall i | 0 <= i < |more| - 1 ensures Link(judge, policy, server, more, longer, i) {
      if i < |visits| - 1 {
        assert Link(judge, policy, server, visits, sleeps, i);
        SameLink(judge, policy, server, visits, sleeps, more, longer, i);
      }
    }
  }

  lemma SameLink(judge: Judge, policy: Option<Recovery>, server: Server, visits: seq<Visit>, sleeps: seq<nat>,
                 more: seq<Visit>, longer: seq<nat>, i: nat)
    requires i + 1 < |visits| && i < |sleeps| && visits <= more && sleeps <= longer
    requires Link(judge, policy, server, visits, sleeps, i)
    ensures Link(judge, policy, server, more, longer, i)
  {
  }

  predicate SleepsOk(policy: Option<Recovery>, sleeps: seq<nat>) {
    && |sleeps| <= MaxAttempts(policy)
    && forall i :: 0 <= i < |sleeps| ==> policy.Some? && sleeps[i] <= policy.value.maxBackoff
  }

  // Between two bodies: `body` is about to be read with `total` bytes counted so far.
  ghost predicate Exchanging(judge: Judge, policy: Option<Recovery>, server: Server, limit: nat, first: Body,
                             visits: seq<Visit>, sleeps: seq<nat>, cursor: Cursor, total: nat, body: Body) {
    && Visited(judge, policy, server, limit, first, visits, sleeps) && SleepsOk(policy, sleeps)
    && |sleeps| == |visits| - 1 && total <= limit
    && visits[|visits| - 1] == Visit(cursor, limit - total, body)
  }

  // One turn of the loop with its record.
  method OneVisit(judge: Judge, limit: nat, policy: Option<Recovery>, first: Body, server: Server,
                  state: SseStreamState, body: Body, sleeps: seq<nat>, ghost visits: seq<Visit>)
      returns (decided: Option<Result<Bytes, McpError>>, sleeps': seq<nat>, more: Body, ghost visits': seq<Visit>)
    requires (policy.Some? ==> ValidRecovery(policy.value)) && state.buffer == []
    requires Exchanging(judge, policy, server, limit, first, visits, sleeps, state.cursor, state.totalBytes, body)
    modifies state
    ensures state.totalBytes <= limit && SleepsOk(policy, sleeps')
    ensures decided.Some? ==>
              && visits' == visits && Visited(judge, policy, server, limit, first, visits, sleeps')
              && Concluded(judge, policy, server, limit, visits, sleeps', state.totalBytes, decided.value)
    ensures decided.None? ==>
              && state.buffer == [] && |sleeps'| == |sleeps| + 1
              && Exchanging(judge, policy, server, limit, first, visits', sleeps', state.cursor, state.totalBytes, more)
  {
    var waited;
    decided, waited, more := OneBody(judge, limit, policy, server, state, body, |sleeps|);
    sleeps', visits' := if waited.Some? then sleeps + [waited.value] else sleeps, visits;
    if decided.None? {
      ghost var next := Visit(state.cursor, limit - state.totalBytes, more);
      VisitedOneMore(judge, policy, server, limit, first, visits, sleeps, next, waited.value);
      visits' := visits + [next];
    } else {
      MoreSleeps(judge, policy, server, limit, first, visits, sleeps, sleeps');
      Conclude(judge, policy, server, limit, visits, sleeps, waited, state.totalBytes, decided.value);
    }
  }

  lemma Conclude(judge: Judge, policy: Option<Recovery>, server: Server, limit: nat, visits: seq<Visit>,
                 sleeps: seq<nat>, waited: Option<nat>, bytes: nat, result: Result<Bytes, McpError>)
    requires visits != [] && |sleeps| == |visits| - 1
    requires var last := visits[|visits| - 1];
             && bytes == limit - last.budget + BodyBytes(judge, last.budget, last.cursor, last.body)
             && EndsAt(policy, server, ReadBody(judge, last.budget, last.cursor, last.body), |sleeps|, waited, result)
    ensures Concluded(judge, policy, server, limit, visits, if waited.Some? then sleeps + [waited.value]
              else sleeps, bytes, result)
  {
  }

  lemma MoreSleeps(judge: Judge, policy: Option<Recovery>, server: Server, limit: nat, first: Body, visits: seq<Visit>,
                   sleeps: seq<nat>, longer: seq<nat>)
    requires Visited(judge, policy, server, limit, first, visits, sleeps) && sleeps <= longer
    ensures Visited(judge, policy, server, limit, first, visits, longer)
  {
    forall i | 0 <= i < |visits| - 1 ensures Link(judge, policy, server, visits, longer, i) {
      assert Link(judge, policy, server, visits, sleeps, i);
      SameLink(judge, policy, server, visits, sleeps, visits, longer, i);
    }
  }

  // sse_response: `visits` are the bodies it read and `sleeps` its waits, one before each GET it sent. Over
  // all bodies together the bytes counted stay within the one limit, and the GETs within the attempts.
  method SseResponse(judge: Judge, limit: nat, policy: Option<Recovery>, first: Body, server: Server)
      returns (result: Result<Bytes, McpError>, bytes: nat, sleeps: seq<nat>, ghost visits: seq<Visit>)
    requires policy.Some? ==> ValidRecovery(policy.value)
    ensures Visited(judge, policy, server, limit, first, visits, sleeps)
    ensures Concluded(judge, policy, server, limit, visits, sleeps, bytes, result)
    ensures result == Answer(judge, policy, server, limit, Cursor(None, None), first, 0)
    ensures bytes <= limit && SleepsOk(policy, sleeps)
  {
    var state := new SseStreamState();
    var body := first;
    sleeps, visits := [], [Visit(Cursor(None, None), limit, first)];
    while true
      invariant fresh(state) && state.buffer == []
      invariant Exchanging(judge, policy, server, limit, first, visits, sleeps, state.cursor, state.totalBytes, body)
      decreases MaxAttempts(policy) - |sleeps|
    {
      var decided;
      decided, sleeps, body, visits := OneVisit(judge, limit, policy, first, server, state, body, sleeps, visits);
      if decided.Some? {
        ConclusionIsAnswer(judge, policy, server, limit, first, visits, sleeps, state.totalBytes, decided.value);
        return decided.value, state.totalBytes, sleeps, visits;
      }
    }
  }

  // ---- the exchange has the answer ----

  ghost predicate Answers(judge: Judge, policy: Option<Recovery>, server: Server, visit: Visit, i: nat,
                          answer: Result<Bytes, McpError>) {
    answer == Answer(judge, policy, server, visit.budget, visit.cursor, visit.body, i)
  }

  lemma FollowerAnswers(judge: Judge, policy: Option<Recovery>, server: Server, visit: Visit, next: Visit, i: nat,
                        sleep: nat, answer: Result<Bytes, McpError>)
    requires Follows(judge, policy, server, visit, next, i, sleep) && Answers(judge, policy, server, visit, i, answer)
    ensures Answers(judge, policy, server, next, i + 1, answer)
  {
    AnswerGoesOn(judge, policy, server, visit.budget, visit.cursor, visit.body, i, next.cursor, next.body);
  }

  lemma {:induction false} AnswerAfter(judge: Judge, policy: Option<Recovery>, server: Server, visits: seq<Visit>,
                                       sleeps: seq<nat>, k: nat, answer: Result<Bytes, McpError>)
    requires k < |visits| && |sleeps| >= |visits| - 1 && Answers(judge, policy, server, visits[0], 0, answer)
    requires forall i :: 0 <= i < k ==> Link(judge, policy, server, visits, sleeps, i)
    ensures Answers(judge, policy, server, visits[k], k, answer)
    decreases k
  {
    if k > 0 {
      AnswerAfter(judge, policy, server, visits, sleeps, k - 1, answer);
      assert Link(judge, policy, server, visits, sleeps, k - 1);
      FollowerAnswers(judge, policy, server, visits[k - 1], visits[k], k - 1, sleeps[k - 1], answer);
    }
  }

  // What the exchange concludes is the answer of the server's bodies.
  lemma ConclusionIsAnswer(judge: Judge, policy: Option<Recovery>, server: Server, limit: nat, first: Body,
                           visits: seq<Visit>, sleeps: seq<nat>, bytes: nat, result: Result<Bytes, McpError>)
    requires Visited(judge, policy, server, limit, first, visits, sleeps)
    requires Concluded(judge, policy, server, limit, visits, sleeps, bytes, result)
    ensures result == Answer(judge, policy, server, limit, Cursor(None, None), first, 0)
  {
    var n := |visits| - 1;
    AnswerAfter(judge, policy, server, visits, sleeps, n,
        Answer(judge, policy, server, limit, Cursor(None, None), first, 0));
    AnswerDecided(judge, policy, server, visits[n].budget, visits[n].cursor, visits[n].body, n);
  }

  // ---- chunking ----

  // The answer of the byte streams, whatever chunks they came in and without a limit.
  function WholeAnswer(judge: Judge, policy: Option<Recovery>, streams: nat -> Result<Bytes, McpError>, cursor: Cursor,
                       stream: Bytes, attempts: nat)
    : Result<Bytes, McpError>
    decreases MaxAttempts(policy) - attempts
  {
    match Whole(judge, cursor, stream)
    case Received(value) => Ok(value)
    case Failed(error) => Err(error)
    case Disconnected(next) =>
      match Wait(policy, next, attempts)
      case Err(error) => Err(error)
      case Ok(_) =>
        match streams(attempts)
        case Err(error) => Err(error)
        case Ok(more) => WholeAnswer(judge, policy, streams, next, more, attempts + 1)
  }

  // This body and the resumed ones that are read after it fit the budget together, and none declares more
  // than is left.
  ghost predicate Fits(judge: Judge, policy: Option<Recovery>, server: Server, budget: nat, cursor: Cursor, body: Body,
                       attempts: nat)
    decreases MaxAttempts(policy) - attempts
  {
    && |Stream(body)| <= budget
    && (body.contentLength.Some? ==> body.contentLength.value <= budget)
    && var outcome := Whole(judge, cursor, Stream(body));
       outcome.Disconnected? && Wait(policy, outcome.cursor, attempts).Ok? && server(attempts).Ok? ==>
         Fits(judge, policy, server, budget - |Stream(body)|, outcome.cursor, server(attempts).value, attempts + 1)
  }

  ghost predicate Carries(server: Server, streams: nat -> Result<Bytes, McpError>) {
    forall n: nat :: streams(n) == match server(n) case Ok(body) => Ok(Stream(body)) case Err(error) => Err(error)
  }

  lemma FittingBodyIsRead(judge: Judge, budget: nat, cursor: Cursor, body: Body)
    requires |Stream(body)| <= budget && (body.contentLength.Some? ==> body.contentLength.value <= budget)
    ensures ReadBody(judge, budget, cursor, body) == Whole(judge, cursor, Stream(body))
  {
    assert [] + Stream(body) == Stream(body);
    FittingStreamIsChunkIndependent(judge, budget, [], cursor, body.chunks);
  }

  lemma WholeAnswerGoesOn(judge: Judge, policy: Option<Recovery>, streams: nat -> Result<Bytes, McpError>,
                          cursor: Cursor, stream: Bytes, attempts: nat, next: Cursor, more: Bytes)
    requires Whole(judge, cursor, stream) == Disconnected(next) && Wait(policy, next, attempts).Ok?
    requires streams(attempts) == Ok(more)
    ensures WholeAnswer(judge, policy, streams, cursor, stream, attempts) ==
            WholeAnswer(judge, policy, streams, next, more, attempts + 1)
  {
  }

  // Without a next body both answers are settled by what this one made of it.
  lemma BothEnd(judge: Judge, policy: Option<Recovery>, server: Server, streams: nat -> Result<Bytes, McpError>,
                budget: nat, cursor: Cursor, body: Body, attempts: nat)
    requires ReadBody(judge, budget, cursor, body) == Whole(judge, cursor, Stream(body))
    requires streams(attempts) == match server(attempts) case Ok(more) => Ok(Stream(more)) case Err(error) => Err(error)
    requires var outcome := Whole(judge, cursor, Stream(body));
             !(outcome.Disconnected? && Wait(policy, outcome.cursor, attempts).Ok? && server(attempts).Ok?)
    ensures Answer(judge, policy, server, budget, cursor, body, attempts) ==
            WholeAnswer(judge, policy, streams, cursor, Stream(body), attempts)
  {
  }

  // Over any number of resumptions, as long as everything fits the cumulative limit, the answer is that
  // of the byte streams: how each body was cut into chunks does not matter.
  lemma {:induction false} ResumedAnswerIsChunkIndependent(
      judge: Judge, policy: Option<Recovery>, server: Server, streams: nat -> Result<Bytes, McpError>,
      budget: nat, cursor: Cursor, body: Body, attempts: nat)
    requires Fits(judge, policy, server, budget, cursor, body, attempts) && Carries(server, streams)
    ensures Answer(judge, policy, server, budget, cursor, body, attempts) ==
            WholeAnswer(judge, policy, streams, cursor, Stream(body), attempts)
    decreases MaxAttempts(policy) - attempts
  {
    FittingBodyIsRead(judge, budget, cursor, body);
    var outcome := Whole(judge, cursor, Stream(body));
    assert streams(attempts) == match server(attempts) case Ok(more) => Ok(Stream(more)) case Err(error) => Err(error);
    if outcome.Disconnected? && Wait(policy, outcome.cursor, attempts).Ok? && server(attempts).Ok? {
      var next, more := outcome.cursor, server(attempts).value;
      ResumedAnswerIsChunkIndependent(judge, policy, server, streams, Left(budget, body), next, more, attempts + 1);
      AnswerGoesOn(judge, policy, server, budget, cursor, body, attempts, next, more);
      WholeAnswerGoesOn(judge, policy, streams, cursor, Stream(body), attempts, next, Stream(more));
    } else {
      BothEnd(judge, policy, server, streams, budget, cursor, body, attempts);
    }
  }

  // The bodies together outgrow the budget, and nothing within it decides: some body overflows what the
  // undecided ones before it have left, or declares that it will.
  ghost predicate Outgrows(judge: Judge, policy: Option<Recovery>, server: Server, budget: nat, cursor: Cursor,
                           body: Body, attempts: nat)
    decreases MaxAttempts(policy) - attempts
  {
    if body.contentLength.Some? && body.contentLength.value > budget then true
    else if |Stream(body)| > budget then Whole(judge, cursor, Stream(body)[..budget]).Disconnected?
    else
      var outcome := Whole(judge, cursor, Stream(body));
      && outcome.Disconnected? && Wait(policy, outcome.cursor, attempts).Ok? && server(attempts).Ok?
      && Outgrows(judge, policy, server, budget - |Stream(body)|, outcome.cursor, server(attempts).value, attempts + 1)
  }

  // Then the answer is the size failure, however the bodies were cut into chunks.
  lemma {:induction false} ResumedOverflowFails(judge: Judge, policy: Option<Recovery>, server: Server, budget: nat,
                                                cursor: Cursor, body: Body, attempts: nat)
    requires Outgrows(judge, policy, server, budget, cursor, body, attempts)
    ensures Answer(judge, policy, server, budget, cursor, body, attempts) == Err(ResponseTooLarge)
    decreases MaxAttempts(policy) - attempts
  {
    if body.contentLength.Some? && body.contentLength.value > budget {
      AnswerDecided(judge, policy, server, budget, cursor, body, attempts);
    } else if |Stream(body)| > budget {
      assert [] + Stream(body)[..budget] == Stream(body)[..budget];
      OverflowFails(judge, budget, [], cursor, body.chunks);
      AnswerDecided(judge, policy, server, budget, cursor, body, attempts);
    } else {
      FittingBodyIsRead(judge, budget, cursor, body);
      var next, more := Whole(judge, cursor, Stream(body)).cursor, server(attempts).value;
      AnswerGoesOn(judge, policy, server, budget, cursor, body, attempts, next, more);
      ResumedOverflowFails(judge, policy, server, budget - |Stream(body)|, next, more, attempts + 1);
    }
  }
}
