// The resumable MCP notification stream and its recovery policy.
module McpEventStream {
  import opened Common
  import opened SseFrames
  import opened SseParser

  const MAX_AUTOMATIC_RECOVERY_ATTEMPTS: nat := 8
  const MAX_AUTOMATIC_RECOVERY_BACKOFF: nat := 30000 // milliseconds

  datatype PolicyError = ZeroAttempts | AttemptLimit | ZeroBackoff | InvalidBackoff | BackoffLimit

  datatype Recovery = Recovery(maxAttempts: nat, initialBackoff: nat, maxBackoff: nat)

  predicate ValidRecovery(r: Recovery) {
    && 1 <= r.maxAttempts <= MAX_AUTOMATIC_RECOVERY_ATTEMPTS
    && 0 < r.initialBackoff <= r.maxBackoff <= MAX_AUTOMATIC_RECOVERY_BACKOFF
  }

  // AutomaticRecovery::new
  function NewRecovery(maxAttempts: nat, initialBackoff: nat, maxBackoff: nat): (r: Result<Recovery, PolicyError>)
    ensures r.Ok? <==> ValidRecovery(Recovery(maxAttempts, initialBackoff, maxBackoff))
    ensures r.Ok? ==> r.value == Recovery(maxAttempts, initialBackoff, maxBackoff)
  {
    if maxAttempts == 0 then Err(ZeroAttempts)
    else if maxAttempts > MAX_AUTOMATIC_RECOVERY_ATTEMPTS then Err(AttemptLimit)
    else if initialBackoff == 0 || maxBackoff == 0 then Err(ZeroBackoff)
    else if maxBackoff < initialBackoff then Err(InvalidBackoff)
    else if maxBackoff > MAX_AUTOMATIC_RECOVERY_BACKOFF then Err(BackoffLimit)
    else Ok(Recovery(maxAttempts, initialBackoff, maxBackoff))
  }

  function Pow2(n: nat): (p: nat)
    ensures p >= 1
  {
    if n == 0 then 1 else 2 * Pow2(n - 1)
  }

  // delay_for: exponential from the initial backoff, capped at the maximum.
  method DelayFor(r: Recovery, attempt: nat) returns (delay: nat)
    requires ValidRecovery(r)
    ensures delay == Min(r.initialBackoff * Pow2(attempt), r.maxBackoff)
  {
    delay := r.initialBackoff;
    var i := 0;
    while i < attempt
      invariant 0 <= i <= attempt
      invariant delay == Min(r.initialBackoff * Pow2(i), r.maxBackoff)
    {
      Doubling(r.initialBackoff, i);
      delay := Min(delay * 2, r.maxBackoff);
      i := i + 1;
    }
  }

  lemma Doubling(initial: nat, i: nat)
    ensures initial * Pow2(i + 1) == 2 * (initial * Pow2(i))
  {
    assert initial * (2 * Pow2(i)) == 2 * (initial * Pow2(i));
  }

  type Message = Bytes

  // What the remote side does, in the order the client asks: `chunks(n)` is the n-th read, None for the
  // end of the body or a transport error; `resumptions(n)` is the n-th GET with Last-Event-ID, giving the
  // declared content length of the new body.
  datatype Remote = Remote(chunks: nat -> Option<Bytes>, resumptions: nat -> Result<Option<nat>, McpError>)

  ghost predicate NonEmptyChunks(remote: Remote) {
    forall n: nat :: remote.chunks(n).Some? ==> remote.chunks(n).value != []
  }

  // McpServerNotification::from_wire over the payload text; None is a protocol violation.
  type Decoder = Bytes -> Option<Message>

  function MessageOf(decode: Decoder, frame: Bytes): Option<Message> {
    match Parse(frame)
    case Err(_) => None
    case Ok(f) => if f.payload.None? then None else decode(f.payload.value)
  }

  // The notifications of a frame sequence, in order.
  function Messages(decode: Decoder, frames: seq<Bytes>): seq<Message> {
    if frames == [] then []
    else
      var last := MessageOf(decode, frames[|frames| - 1]);
      Messages(decode, frames[..|frames| - 1]) + if last.Some? then [last.value] else []
  }

  // History of one connection: the bytes received on it, the complete frames taken from them, and the
  // notifications returned.
  datatype Connection = Connection(wire: Bytes, taken: seq<Bytes>, given: seq<Message>)

  const Opened: Connection := Connection([], [], [])

  // What has been received is the frames taken and the buffer, and exactly the notifications of those
  // frames have been returned.
  ghost predicate InStep(decode: Decoder, c: Connection, buffer: Bytes) {
    && Drain(c.wire) == (c.taken + Drain(buffer).0, Drain(buffer).1)
    && c.given == Messages(decode, c.taken)
  }

  lemma OpenedInStep(decode: Decoder)
    ensures InStep(decode, Opened, [])
  {
    var none: seq<Bytes> := [];
    assert Drain([]).0 == none && none + none == none;
  }

  lemma TakeKeepsInStep(decode: Decoder, c: Connection, buffer: Bytes)
    requires Cut(buffer, 0).Some? && InStep(decode, c, buffer)
    ensures var end := Cut(buffer, 0).value;
            var message := MessageOf(decode, buffer[..end]);
            var given := if message.Some? then c.given + [message.value] else c.given;
            InStep(decode, Connection(c.wire, c.taken + [buffer[..end]], given), buffer[end..])
  {
    var end := Cut(buffer, 0).value;
    DrainUnfolds(buffer, end);
    Associative(c.taken, [buffer[..end]], Drain(buffer[end..]).0);
    assert (c.taken + [buffer[..end]])[..|c.taken|] == c.taken;
  }

  lemma ArriveKeepsInStep(decode: Decoder, c: Connection, buffer: Bytes, bytes: Bytes)
    requires Cut(buffer, 0).None? && InStep(decode, c, buffer)
    ensures InStep(decode, c.(wire := c.wire + bytes), buffer + bytes)
  {
    DrainInTwo(c.wire, bytes);
    assert c.taken + [] == c.taken;
  }

  class EventStream {
    const limit: nat
    const resumption: Option<Recovery>
    const remote: Remote
    const decode: Decoder

    var buffer: Bytes
    var totalBytes: nat
    var lastEventId: Option<Bytes>
    var retryDelay: Option<nat>
    var resumeAttempts: nat
    var closed: bool
    var polls: nat

    ghost var connection: Connection
    ghost var sleeps: nat
    ghost var slept: nat

    ghost function MaxAttempts(): nat {
      if resumption.Some? then resumption.value.maxAttempts else 0
    }

    // Bytes, attempts and sleeps stay within their budgets across the whole stream, resumptions included.
    ghost predicate Bounded()
      reads this
    {
      && (resumption.Some? ==> ValidRecovery(resumption.value))
      && NonEmptyChunks(remote)
      && |buffer| <= totalBytes <= limit
      && resumeAttempts <= sleeps <= resumeAttempts + (if closed then 1 else 0)
      && sleeps <= MaxAttempts()
      && slept <= sleeps * (if resumption.Some? then resumption.value.maxBackoff else 0)
    }

    ghost predicate Valid()
      reads this
    {
      Bounded() && if closed then buffer == [] else InStep(decode, connection, buffer)
    }

    // The last frame taken does not parse, or its payload is not a notification.
    ghost predicate BadFrame()
      reads this
    {
      connection.taken != [] && var frame := Parse(connection.taken[|connection.taken| - 1]);
      frame.Err? || (frame.value.payload.Some? && decode(frame.value.payload.value).None?)
    }

    // The last chunk does not fit what is left of the byte budget.
    ghost predicate OversizedChunk()
      reads this
    {
      polls > 0 && remote.chunks(polls - 1).Some? && |remote.chunks(polls - 1).value| > limit - totalBytes
    }

    // The connection has ended and may not be resumed, or its resumption failed.
    ghost predicate ResumptionFails(error: McpError)
      reads this
    {
      polls > 0 && remote.chunks(polls - 1).None? &&
      if resumption.None? || lastEventId.None? || resumeAttempts >= resumption.value.maxAttempts
      then error == SseStreamTerminated
      else if retryDelay.Some? && retryDelay.value > resumption.value.maxBackoff then error == SseRetryLimit
      else match remote.resumptions(resumeAttempts)
        case Err(failure) => error == failure
        case Ok(length) => length.Some? && length.value > limit - totalBytes && error == ResponseTooLarge
    }

    // An error has a cause on the remote side.
    ghost predicate Justified(error: McpError)
      reads this
    {
      || (BadFrame() && error == MalformedResponse)
      || (OversizedChunk() && error == ResponseTooLarge)
      || ResumptionFails(error)
    }

    constructor (limit: nat, resumption: Option<Recovery>, remote: Remote, decode: Decoder)
      requires resumption.Some? ==> ValidRecovery(resumption.value)
      requires NonEmptyChunks(remote)
      ensures Valid() && !closed && totalBytes == 0 && sleeps == 0 && resumeAttempts == 0 && connection == Opened
      ensures this.limit == limit && this.resumption == resumption && this.remote == remote && this.decode == decode
    {
      this.limit, this.resumption, this.remote, this.decode := limit, resumption, remote, decode;
      buffer, totalBytes, lastEventId, retryDelay, resumeAttempts, closed := [], 0, None, None, 0, false;
      polls, sleeps, slept, connection := 0, 0, 0, Opened;
      OpenedInStep(decode);
    }

    // McpServerEventStream::new
    static method New(limit: nat, resumption: Option<Recovery>, remote: Remote, decode: Decoder,
                      contentLength: Option<nat>)
        returns (result: Result<EventStream, McpError>)
      requires resumption.Some? ==> ValidRecovery(resumption.value)
      requires NonEmptyChunks(remote)
      ensures result == Err(ResponseTooLarge) <==> contentLength.Some? && contentLength.value > limit
      ensures result.Ok? <==> !(contentLength.Some? && contentLength.value > limit)
      ensures result.Ok? ==>
                var stream := result.value;
                && fresh(stream) && stream.Valid() && !stream.closed && stream.limit == limit
                && stream.totalBytes == 0 && stream.sleeps == 0 && stream.resumeAttempts == 0
                && stream.connection == Opened
    {
      if contentLength.Some? && contentLength.value > limit { return Err(ResponseTooLarge); }
      var stream := new EventStream(limit, resumption, remote, decode);
      return Ok(stream);
    }

    // close_with
    method Close()
      requires Bounded()
      modifies this`closed, this`buffer
      ensures Valid() && closed
    {
      closed, buffer := true, [];
    }

    ghost method Slept(delay: nat)
      requires Bounded() && resumption.Some? && delay <= resumption.value.maxBackoff
      requires resumeAttempts == sleeps < MaxAttempts()
      modifies this`sleeps, this`slept
      ensures sleeps == old(sleeps) + 1 && slept == old(slept) + delay
      ensures slept <= sleeps * resumption.value.maxBackoff
    {
      sleeps, slept := sleeps + 1, slept + delay;
      assert sleeps * resumption.value.maxBackoff ==
          old(sleeps) * resumption.value.maxBackoff + resumption.value.maxBackoff;
    }

    // The first half of resume_after_disconnect: how long to wait before the next attempt, if at all.
    method NextDelay() returns (delay: Result<nat, McpError>)
      requires Bounded() && !closed
      ensures delay.Ok? ==>
                && resumption.Some? && lastEventId.Some? && resumeAttempts < resumption.value.maxAttempts
                && delay.value <= resumption.value.maxBackoff
                && (retryDelay.Some? ==> delay.value == retryDelay.value)
                && (retryDelay.None? ==>
                      delay.value == Min(resumption.value.initialBackoff * Pow2(resumeAttempts),
                                         resumption.value.maxBackoff))
      ensures delay.Err? ==>
                delay.error ==
                if resumption.None? || lastEventId.None? || resumeAttempts >= resumption.value.maxAttempts
                then SseStreamTerminated else SseRetryLimit
      ensures delay == Err(SseRetryLimit) ==>
                resumption.Some? && retryDelay.Some? && retryDelay.value > resumption.value.maxBackoff
    {
      if resumption.None? || lastEventId.None? || resumeAttempts >= resumption.value.maxAttempts {
        return Err(SseStreamTerminated);
      }
      var wait;
      if retryDelay.Some? { wait := retryDelay.value; } else { wait := DelayFor(resumption.value, resumeAttempts); }
      if wait > resumption.value.maxBackoff { return Err(SseRetryLimit); }
      return Ok(wait);
    }

    // resume_after_disconnect
    method ResumeAfterDisconnect() returns (error: Option<McpError>)
      requires Bounded() && !closed && polls > 0 && remote.chunks(polls - 1).None?
      modifies this`buffer, this`closed, this`resumeAttempts, this`connection, this`sleeps, this`slept
      ensures Valid() && old(sleeps) <= sleeps
      ensures error.Some? ==> closed && resumeAttempts == old(resumeAttempts) && ResumptionFails(error.value)
      ensures error.None? ==> !closed && resumeAttempts == old(resumeAttempts) + 1 && connection == Opened
    {
      buffer := [];
      var delay := NextDelay();
      if delay.Err? {
        Close();
        return Some(delay.error);
      }
      Slept(delay.value);
      match remote.resumptions(resumeAttempts)
      case Err(failure) =>
        closed := true;
        return Some(failure);
      case Ok(length) =>
        if length.Some? && length.value > limit - totalBytes {
          closed := true;
          return Some(ResponseTooLarge);
        }
        resumeAttempts := resumeAttempts + 1;
        connection := Opened;
        OpenedInStep(decode);
        return None;
    }

    // One complete frame at the front of the buffer: None means it carried no payload.
    method HandleFrame(frame: Bytes, rest: Bytes) returns (outcome: Option<Result<Message, McpError>>)
      requires Valid() && !closed && Cut(buffer, 0).Some?
      requires frame == buffer[..Cut(buffer, 0).value] && rest == buffer[Cut(buffer, 0).value..]
      modifies this`buffer, this`lastEventId, this`retryDelay, this`connection, this`closed
      ensures Valid() && |buffer| < |old(buffer)|
      ensures closed <==> outcome.Some? && outcome.value.Err?
      ensures closed ==> BadFrame() && outcome.value.error == MalformedResponse
      ensures outcome.None? ==> connection.given == old(connection.given)
      ensures outcome.Some? && outcome.value.Ok? ==>
                connection.given == old(connection.given) + [outcome.value.value]
                && MessageOf(decode, frame) == Some(outcome.value.value)
    {
      TakeKeepsInStep(decode, connection, buffer);
      ghost var message := MessageOf(decode, frame);
      connection := Connection(connection.wire, connection.taken + [frame],
                               if message.Some? then connection.given + [message.value] else connection.given);
      buffer := rest;
      var parsed := ParseSseFrame(frame);
      if parsed.Err? {
        Close();
        return Some(Err(parsed.error));
      }
      if parsed.value.eventId.Some? { lastEventId := parsed.value.eventId; }
      if parsed.value.retryDelay.Some? { retryDelay := parsed.value.retryDelay; }
      if parsed.value.payload.None? { return None; }
      var decoded := decode(parsed.value.payload.value);
      if decoded.None? {
        Close();
        return Some(Err(MalformedResponse));
      }
      return Some(Ok(decoded.value));
    }

    // One chunk, or a resumption when the connection has ended.
    method ReadMore() returns (error: Option<McpError>)
      requires Valid() && !closed && Cut(buffer, 0).None?
      modifies this
      ensures Valid() && (error.Some? <==> closed) && (error.Some? ==> Justified(error.value))
      ensures old(totalBytes) <= totalBytes && old(sleeps) <= sleeps && old(resumeAttempts) <= resumeAttempts
      ensures error.None? && resumeAttempts == old(resumeAttempts) ==>
                totalBytes > old(totalBytes) && connection.given == old(connection.given)
      ensures error.None? && resumeAttempts > old(resumeAttempts) ==> connection.given == []
    {
      // The source compares the buffer length with the limit here; by Bounded it never exceeds it.
      var chunk := remote.chunks(polls);
      polls := polls + 1;
      if chunk.None? {
        error := ResumeAfterDisconnect();
        return;
      }
      if |chunk.value| > limit - totalBytes {
        Close();
        return Some(ResponseTooLarge);
      }
      ArriveKeepsInStep(decode, connection, buffer, chunk.value);
      totalBytes, buffer := totalBytes + |chunk.value|, buffer + chunk.value;
      connection := connection.(wire := connection.wire + chunk.value);
      return None;
    }

    // next_notification: ends for every remote that sends non-empty chunks, and any error is final.
    method NextNotification() returns (result: Result<Message, McpError>)
      requires Valid()
      modifies this
      ensures Valid()
      ensures result.Err? <==> closed
      ensures result.Err? && !old(closed) ==> Justified(result.error)
      ensures old(closed) ==>
                && result == Err(SseStreamTerminated) && polls == old(polls)
                && sleeps == old(sleeps) && totalBytes == old(totalBytes)
      ensures result.Ok? ==>
                connection.given ==
                (if resumeAttempts == old(resumeAttempts) then old(connection.given) else []) + [result.value]
      ensures old(totalBytes) <= totalBytes && old(sleeps) <= sleeps && old(resumeAttempts) <= resumeAttempts
    {
      if closed { return Err(SseStreamTerminated); }
      while true
        invariant Valid() && !closed
        invariant old(totalBytes) <= totalBytes && old(sleeps) <= sleeps && old(resumeAttempts) <= resumeAttempts
        invariant connection.given == if resumeAttempts == old(resumeAttempts) then old(connection.given) else []
        decreases MaxAttempts() - resumeAttempts, limit - totalBytes, |buffer|
      {
        var frame, rest := TakeSseFrame(buffer);
        if frame.Some? {
          var outcome := HandleFrame(frame.value, rest);
          if outcome.Some? { return outcome.value; }
          continue;
        }
        var error := ReadMore();
        if error.Some? { return Err(error.value); }
      }
    }
  }
}
