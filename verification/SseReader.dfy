// Reading the reply to one request from an SSE response body, within a byte budget.
module SseReader {
  import opened Common
  import opened SseFrames
  import opened SseParser

  // What the JSON-RPC layer makes of one payload: the awaited reply, a notification to pass over, or a
  // protocol violation. Which one is decided by code outside this model.
  datatype ProtocolError = Violation | Remote

  datatype Verdict = Reply(value: Bytes) | Notification | Reject(error: ProtocolError)

  type Judge = Bytes -> Verdict

  // What a disconnected stream hands to its resumption.
  datatype Cursor = Cursor(lastEventId: Option<Bytes>, retryDelay: Option<nat>)

  datatype Outcome = Received(value: Bytes) | Disconnected(cursor: Cursor) | Failed(error: McpError)

  function ErrorOf(e: ProtocolError): McpError {
    if e == Violation then MalformedResponse else RemoteError
  }

  function Note(cursor: Cursor, frame: Frame): Cursor {
    Cursor(if frame.eventId.Some? then frame.eventId else cursor.lastEventId,
           if frame.retryDelay.Some? then frame.retryDelay else cursor.retryDelay)
  }

  // Frames in order, until one decides the outcome.
  function Scan(judge: Judge, cursor: Cursor, frames: seq<Bytes>): Outcome
    decreases |frames|
  {
    if frames == [] then Disconnected(cursor)
    else match Parse(frames[0])
      case Err(error) => Failed(error)
      case Ok(frame) =>
        var noted := Note(cursor, frame);
        if frame.payload.None? then Scan(judge, noted, frames[1..])
        else match judge(frame.payload.value)
          case Reply(value) => Received(value)
          case Reject(error) => Failed(ErrorOf(error))
          case Notification => Scan(judge, noted, frames[1..])
  }

  // The outcome of the whole stream, as if it had arrived at once and without limit.
  function Whole(judge: Judge, cursor: Cursor, stream: Bytes): Outcome {
    Scan(judge, cursor, Drain(stream).0)
  }

  // What chunk-by-chunk reading with `budget` bytes left does.
  function Consume(judge: Judge, budget: nat, buffer: Bytes, cursor: Cursor, chunks: seq<Bytes>): Outcome
    decreases |chunks|
  {
    if chunks == [] then Disconnected(cursor)
    else if |chunks[0]| > budget then Failed(ResponseTooLarge)
    else
      var arrived := Drain(buffer + chunks[0]);
      match Scan(judge, cursor, arrived.0)
      case Disconnected(next) => Consume(judge, budget - |chunks[0]|, arrived.1, next, chunks[1..])
      case decided => decided
  }

  // How many bytes that reading counts: the chunks up to the one that decides, or that no longer fits.
  function Taken(judge: Judge, budget: nat, buffer: Bytes, cursor: Cursor, chunks: seq<Bytes>): (bytes: nat)
    ensures bytes <= budget && bytes <= |Flatten(chunks)|
    decreases |chunks|
  {
    if chunks == [] || |chunks[0]| > budget then 0
    else
      var arrived := Drain(buffer + chunks[0]);
      var outcome := Scan(judge, cursor, arrived.0);
      |chunks[0]| + if outcome.Disconnected?
          then Taken(judge, budget - |chunks[0]|, arrived.1, outcome.cursor, chunks[1..]) else 0
  }

  // ---- the code ----

  lemma ConsumeUnfolds(judge: Judge, budget: nat, buffer: Bytes, cursor: Cursor, chunks: seq<Bytes>)
    requires chunks != [] && |chunks[0]| <= budget
    ensures Consume(judge, budget, buffer, cursor, chunks) ==
            match Whole(judge, cursor, buffer + chunks[0])
            case Disconnected(next) =>
              Consume(judge, budget - |chunks[0]|, Drain(buffer + chunks[0]).1, next, chunks[1..])
            case decided => decided
  {
  }

  lemma TakenUnfolds(judge: Judge, budget: nat, buffer: Bytes, cursor: Cursor, chunks: seq<Bytes>, outcome: Outcome)
    requires chunks != [] && |chunks[0]| <= budget && outcome == Whole(judge, cursor, buffer + chunks[0])
    ensures outcome.Disconnected? ==>
              Taken(judge, budget, buffer, cursor, chunks) ==
              |chunks[0]| + Taken(judge, budget - |chunks[0]|, Drain(buffer + chunks[0]).1, outcome.cursor, chunks[1..])
    ensures !outcome.Disconnected? ==> Taken(judge, budget, buffer, cursor, chunks) == |chunks[0]|
  {
  }

  class SseStreamState {
    var totalBytes: nat
    var buffer: Bytes
    var cursor: Cursor

    constructor ()
      ensures totalBytes == 0 && buffer == [] && cursor == Cursor(None, None)
    {
      totalBytes, buffer, cursor := 0, [], Cursor(None, None);
    }
  }

  // consume_sse_response. The body's end and a transport error look alike: both disconnect.
  method ConsumeSseResponse(judge: Judge, limit: nat, contentLength: Option<nat>, chunks: seq<Bytes>,
                            state: SseStreamState)
      returns (outcome: Outcome)
    requires state.totalBytes <= limit && state.buffer == []
    modifies state
    ensures old(state.totalBytes) <= state.totalBytes <= limit
    ensures outcome.Disconnected? ==>
              && state.buffer == [] && state.cursor == outcome.cursor
              && state.totalBytes == old(state.totalBytes) + |Flatten(chunks)|
    ensures contentLength.Some? && contentLength.value > limit - old(state.totalBytes) ==>
              outcome == Failed(ResponseTooLarge) && state.totalBytes == old(state.totalBytes)
    ensures !(contentLength.Some? && contentLength.value > limit - old(state.totalBytes)) ==>
              && outcome == Consume(judge, limit - old(state.totalBytes), [], old(state.cursor), chunks)
              && state.totalBytes == old(state.totalBytes)
                                     + Taken(judge, limit - old(state.totalBytes), [], old(state.cursor), chunks)
  {
    if contentLength.Some? && contentLength.value > limit - state.totalBytes {
      return Failed(ResponseTooLarge);
    }
    ghost var goal := Consume(judge, limit - state.totalBytes, [], state.cursor, chunks);
    ghost var bytes := state.totalBytes + Taken(judge, limit - state.totalBytes, [], state.cursor, chunks);
    DisconnectedTakesAll(judge, limit - state.totalBytes, [], state.cursor, chunks);
    outcome := ReadChunks(judge, limit, chunks, state, goal, bytes);
  }

  // The chunk loop.
  method ReadChunks(judge: Judge, limit: nat, chunks: seq<Bytes>, state: SseStreamState, ghost goal: Outcome,
                    ghost bytes: nat)
      returns (outcome: Outcome)
    requires Leads(judge, limit, state.totalBytes, state.buffer, state.cursor, chunks, goal, bytes)
    requires |state.buffer| <= state.totalBytes
    modifies state
    ensures old(state.totalBytes) <= state.totalBytes <= limit
    ensures outcome == goal && state.totalBytes == bytes
    ensures outcome.Disconnected? ==> state.buffer == [] && state.cursor == outcome.cursor
  {
    assert chunks[0..] == chunks;
    var i := 0;
    while i < |chunks|
      invariant 0 <= i <= |chunks| && old(state.totalBytes) <= state.totalBytes
      invariant |state.buffer| <= state.totalBytes
      invariant Leads(judge, limit, state.totalBytes, state.buffer, state.cursor, chunks[i..], goal, bytes)
    {
      assert chunks[i..] == [chunks[i]] + chunks[i + 1..];
      var decided := ReadChunk(judge, limit, chunks[i], state, chunks[i + 1..], goal, bytes);
      if decided.Some? { return decided.value; }
      i := i + 1;
    }
    LeadsEnd(judge, limit, state.totalBytes, state.buffer, state.cursor, goal, bytes);
    state.buffer := [];
    return Disconnected(state.cursor);
  }

  // Reading the rest of the chunks from here comes to this outcome and this byte count.
  ghost predicate Leads(judge: Judge, limit: nat, total: nat, buffer: Bytes, cursor: Cursor, rest: seq<Bytes>,
                        goal: Outcome, bytes: nat) {
    && total <= limit
    && Consume(judge, limit - total, buffer, cursor, rest) == goal
    && total + Taken(judge, limit - total, buffer, cursor, rest) == bytes
  }

  lemma LeadsEnd(judge: Judge, limit: nat, total: nat, buffer: Bytes, cursor: Cursor, goal: Outcome, bytes: nat)
    requires Leads(judge, limit, total, buffer, cursor, [], goal, bytes)
    ensures goal == Disconnected(cursor) && bytes == total
  {
  }

  lemma LeadsTooFar(judge: Judge, limit: nat, total: nat, buffer: Bytes, cursor: Cursor, chunk: Bytes,
                    rest: seq<Bytes>, goal: Outcome, bytes: nat)
    requires Leads(judge, limit, total, buffer, cursor, [chunk] + rest, goal, bytes) && |chunk| > limit - total
    ensures goal == Failed(ResponseTooLarge) && bytes == total
  {
    assert ([chunk] + rest)[0] == chunk;
  }

  lemma LeadsOn(judge: Judge, limit: nat, total: nat, buffer: Bytes, cursor: Cursor, chunk: Bytes, rest: seq<Bytes>,
                goal: Outcome, bytes: nat, outcome: Outcome)
    requires Leads(judge, limit, total, buffer, cursor, [chunk] + rest, goal, bytes) && |chunk| <= limit - total
    requires outcome == Whole(judge, cursor, buffer + chunk)
    ensures outcome.Disconnected? ==>
              Leads(judge, limit, total + |chunk|, Drain(buffer + chunk).1, outcome.cursor, rest, goal, bytes)
    ensures !outcome.Disconnected? ==> goal == outcome && bytes == total + |chunk|
  {
    var chunks := [chunk] + rest;
    assert chunks[0] == chunk && chunks[1..] == rest;
    ConsumeUnfolds(judge, limit - total, buffer, cursor, chunks);
    TakenUnfolds(judge, limit - total, buffer, cursor, chunks, outcome);
  }

  // One chunk: counted, appended and drained.
  method ReadChunk(judge: Judge, limit: nat, chunk: Bytes, state: SseStreamState, ghost rest: seq<Bytes>,
                   ghost goal: Outcome, ghost bytes: nat)
      returns (decided: Option<Outcome>)
    requires Leads(judge, limit, state.totalBytes, state.buffer, state.cursor, [chunk] + rest, goal, bytes)
    requires |state.buffer| <= state.totalBytes
    modifies state
    ensures old(state.totalBytes) <= state.totalBytes <= limit
    ensures decided.Some? ==> decided.value == goal && !goal.Disconnected? && state.totalBytes == bytes
    ensures decided.None? ==>
              && |state.buffer| <= state.totalBytes
              && Leads(judge, limit, state.totalBytes, state.buffer, state.cursor, rest, goal, bytes)
  {
    if |chunk| > limit - state.totalBytes {
      LeadsTooFar(judge, limit, state.totalBytes, state.buffer, state.cursor, chunk, rest, goal, bytes);
      return Some(Failed(ResponseTooLarge));
    }
    ghost var outcome := Whole(judge, state.cursor, state.buffer + chunk);
    LeadsOn(judge, limit, state.totalBytes, state.buffer, state.cursor, chunk, rest, goal, bytes, outcome);
    state.totalBytes := state.totalBytes + |chunk|;
    state.buffer := state.buffer + chunk;
    DrainShrinks(state.buffer);
    decided := DrainFrames(judge, state);
    // The source checks the buffer length here; it cannot exceed what has been counted.
    assert decided.None? ==> |state.buffer| <= limit;
  }

  // A body that ends undecided was counted whole.
  lemma {:induction false} DisconnectedTakesAll(judge: Judge, budget: nat, buffer: Bytes, cursor: Cursor,
                                                chunks: seq<Bytes>)
    ensures Consume(judge, budget, buffer, cursor, chunks).Disconnected? ==>
              Taken(judge, budget, buffer, cursor, chunks) == |Flatten(chunks)|
    decreases |chunks|
  {
    if chunks != [] && |chunks[0]| <= budget {
      ConsumeUnfolds(judge, budget, buffer, cursor, chunks);
      var outcome := Whole(judge, cursor, buffer + chunks[0]);
      TakenUnfolds(judge, budget, buffer, cursor, chunks, outcome);
      if outcome.Disconnected? {
        DisconnectedTakesAll(judge, budget - |chunks[0]|, Drain(buffer + chunks[0]).1, outcome.cursor, chunks[1..]);
      }
    }
  }

  // The inner loop: takes and judges frames until none is left or one decides.
  method DrainFrames(judge: Judge, state: SseStreamState) returns (decided: Option<Outcome>)
    modifies state
    ensures state.totalBytes == old(state.totalBytes)
    ensures decided.Some? ==> decided.value == Scan(judge, old(state.cursor), Drain(old(state.buffer)).0)
                              && !decided.value.Disconnected?
    ensures decided.None? ==>
              && state.buffer == Drain(old(state.buffer)).1
              && Scan(judge, old(state.cursor), Drain(old(state.buffer)).0) == Disconnected(state.cursor)
  {
    ghost var stream, opening := state.buffer, state.cursor;
    while true
      invariant state.totalBytes == old(state.totalBytes)
      invariant Drain(stream).1 == Drain(state.buffer).1
      invariant Scan(judge, opening, Drain(stream).0) == Scan(judge, state.cursor, Drain(state.buffer).0)
      decreases |state.buffer|
    {
      ghost var before := state.buffer;
      var frame, rest := TakeSseFrame(state.buffer);
      state.buffer := rest;
      if frame.None? { return None; }
      DrainUnfolds(before, Cut(before, 0).value);
      assert Drain(before).0[0] == frame.value && Drain(before).0[1..] == Drain(rest).0;
      var parsed := ParseSseFrame(frame.value);
      if parsed.Err? { return Some(Failed(parsed.error)); }
      state.cursor := Note(state.cursor, parsed.value);
      if parsed.value.payload.None? { continue; }
      match judge(parsed.value.payload.value) {
        case Reply(value) => return Some(Received(value));
        case Reject(error) => return Some(Failed(ErrorOf(error)));
        case Notification =>
      }
    }
  }

  lemma DrainShrinks(stream: Bytes)
    ensures |Drain(stream).1| <= |stream|
  {
    DrainConserves(stream);
  }

  // ---- chunking and the budget ----

  lemma {:induction false} ScanInTwo(judge: Judge, cursor: Cursor, a: seq<Bytes>, b: seq<Bytes>)
    ensures Scan(judge, cursor, a + b) ==
            match Scan(judge, cursor, a) case Disconnected(next) => Scan(judge, next, b) case decided => decided
    decreases |a|
  {
    if a == [] {
      assert a + b == b;
    } else {
      assert (a + b)[0] == a[0] && (a + b)[1..] == a[1..] + b;
      match Parse(a[0])
      case Err(_) =>
      case Ok(frame) => ScanInTwo(judge, Note(cursor, frame), a[1..], b);
    }
  }

  lemma WholeInTwo(judge: Judge, cursor: Cursor, a: Bytes, b: Bytes)
    ensures Whole(judge, cursor, a + b) ==
            match Whole(judge, cursor, a)
            case Disconnected(next) => Whole(judge, next, Drain(a).1 + b)
            case decided => decided
  {
    DrainInTwo(a, b);
    ScanInTwo(judge, cursor, Drain(a).0, Drain(Drain(a).1 + b).0);
  }

  // Whenever the stream fits the budget, every chunking gives the outcome of the whole stream.
  lemma {:induction false} FittingStreamIsChunkIndependent(judge: Judge, budget: nat, buffer: Bytes, cursor: Cursor,
                                                           chunks: seq<Bytes>)
    requires Drained(buffer) && |Flatten(chunks)| <= budget
    ensures Consume(judge, budget, buffer, cursor, chunks) == Whole(judge, cursor, buffer + Flatten(chunks))
    decreases |chunks|
  {
    if chunks == [] {
      assert buffer + Flatten(chunks) == buffer;
    } else {
      var arrived := buffer + chunks[0];
      assert buffer + Flatten(chunks) == arrived + Flatten(chunks[1..]);
      ConsumeUnfolds(judge, budget, buffer, cursor, chunks);
      WholeInTwo(judge, cursor, arrived, Flatten(chunks[1..]));
      ResidueIsDrained(arrived);
      if Whole(judge, cursor, arrived).Disconnected? {
        FittingStreamIsChunkIndependent(judge, budget - |chunks[0]|, Drain(arrived).1,
                                        Whole(judge, cursor, arrived).cursor, chunks[1..]);
      }
    }
  }

  // A stream that outgrows the budget fails for every chunking, if its first `budget` bytes decide
  // nothing.
  lemma {:induction false} OverflowFails(judge: Judge, budget: nat, buffer: Bytes, cursor: Cursor, chunks: seq<Bytes>)
    requires Drained(buffer) && budget < |Flatten(chunks)|
    requires Whole(judge, cursor, buffer + Flatten(chunks)[..budget]).Disconnected?
    ensures Consume(judge, budget, buffer, cursor, chunks) == Failed(ResponseTooLarge)
    decreases |chunks|
  {
    var first := chunks[0];
    if |first| <= budget {
      var arrived := buffer + first;
      var more := Flatten(chunks[1..])[..budget - |first|];
      assert buffer + Flatten(chunks)[..budget] == arrived + more;
      WholeInTwo(judge, cursor, arrived, more);
      ResidueIsDrained(arrived);
      OverflowFails(judge, budget - |first|, Drain(arrived).1, Whole(judge, cursor, arrived).cursor, chunks[1..]);
    }
  }

  lemma FlattenSmall(a: Bytes, b: Bytes)
    ensures Flatten([a]) == a && Flatten([a, b]) == a + b
  {
    assert Flatten([a]) == a + Flatten([]);
    assert [a, b][1..] == [b] && Flatten([b]) == b + Flatten([]);
  }

  // Exactly when an oversized stream's outcome is independent of chunking: its first `budget` bytes
  // must decide nothing. Otherwise one chunking delivers the decision and another fails on size.
  lemma OversizedChunkIndependenceIff(judge: Judge, budget: nat, cursor: Cursor, stream: Bytes)
    requires budget < |stream|
    ensures Whole(judge, cursor, stream[..budget]).Disconnected? <==>
            forall a, b :: Flatten(a) == stream && Flatten(b) == stream ==>
              Consume(judge, budget, [], cursor, a) == Consume(judge, budget, [], cursor, b)
  {
    if Whole(judge, cursor, stream[..budget]).Disconnected? {
      forall a, b | Flatten(a) == stream && Flatten(b) == stream
        ensures Consume(judge, budget, [], cursor, a) == Consume(judge, budget, [], cursor, b)
      {
        assert [] + stream[..budget] == stream[..budget];
        OverflowFails(judge, budget, [], cursor, a);
        OverflowFails(judge, budget, [], cursor, b);
      }
    } else {
      var head, tail := stream[..budget], stream[budget..];
      FlattenSmall(stream, []);
      FlattenSmall(head, tail);
      assert head + tail == stream && [] + head == head;
      assert Consume(judge, budget, [], cursor, [stream]) == Failed(ResponseTooLarge);
      assert Consume(judge, budget, [], cursor, [head, tail]) == Whole(judge, cursor, head);
      DecisionIsNotSize(judge, cursor, Drain(head).0);
    }
  }

  lemma {:induction false} DecisionIsNotSize(judge: Judge, cursor: Cursor, frames: seq<Bytes>)
    ensures Scan(judge, cursor, frames) != Failed(ResponseTooLarge)
    decreases |frames|
  {
    if frames != [] && Parse(frames[0]).Ok? {
      DecisionIsNotSize(judge, Note(cursor, Parse(frames[0]).value), frames[1..]);
    }
  }
}
