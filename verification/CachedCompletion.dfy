// The completion wrapper over the response cache.
module CachedCompletion {
  import opened Common
  import opened ResponseCache

  datatype Request = Request(prompt: string, tools: seq<string>, toolResults: seq<string>)

  datatype EligibilityError = RequestDeclaresTools | RequestContainsToolResults

  // request_eligibility
  function RequestEligibility(request: Request): Result<(), EligibilityError> {
    if request.tools != [] then Err(RequestDeclaresTools)
    else if request.toolResults != [] then Err(RequestContainsToolResults)
    else Ok(())
  }

  datatype Status =
    | Hit | MissStored | MissStoreFailed | BypassedIneligibleRequest | BypassedReadFailure | MissIneligibleResponse

  datatype CompletionError = ExecutorFailed | CacheReadFailed

  // The environment of one call: the clock at its read and at its write, whether the backend fails
  // either, the executor's answer, and what other callers do with the cache while it works.
  datatype Environment = Environment(
    readAt: Time, readFails: bool, answer: Option<Response>, others: seq<Op>, writeAt: Time, writeFails: bool)

  ghost predicate Plausible(clock: Time, e: Environment) {
    && clock <= e.readAt <= e.writeAt
    && Monotone(e.readAt, e.others)
    && forall i :: 0 <= i < |e.others| ==> e.others[i].now <= e.writeAt
  }

  // The log after these operations.
  function LogAfter(log: Log, bounds: Bounds, ops: seq<Op>): Log {
    if ops == [] then log else LogApply(LogAfter(log, bounds, ops[..|ops| - 1]), bounds, ops[|ops| - 1]).0
  }

  method PerformAll(cache: InMemoryResponseCache, ops: seq<Op>)
    requires cache.Valid() && Monotone(cache.clock, ops)
    modifies cache
    ensures cache.Valid() && cache.log == LogAfter(old(cache.log), cache.bounds, ops)
    ensures ops == [] ==> cache.clock == old(cache.clock)
    ensures ops != [] ==> cache.clock == ops[|ops| - 1].now
  {
    var i := 0;
    while i < |ops|
      invariant 0 <= i <= |ops| && cache.Valid()
      invariant cache.log == LogAfter(old(cache.log), cache.bounds, ops[..i])
      invariant cache.clock == if i == 0 then old(cache.clock) else ops[i - 1].now
    {
      assert ops[..i + 1][..i] == ops[..i];
      var _ := cache.Perform(ops[i]);
      i := i + 1;
    }
    assert ops[..i] == ops;
  }

  // AiCachedCompletion::complete. `calls` counts the executor's invocations.
  method Complete(cache: InMemoryResponseCache, failClosed: bool, ttl: nat, request: Request, key: Key, e: Environment)
      returns (result: Result<(Response, Status), CompletionError>, calls: nat)
    requires cache.Valid() && Plausible(cache.clock, e)
    modifies cache
    ensures cache.Valid()
    ensures result.Ok? && result.value.1 == Hit <==>
              RequestEligibility(request).Ok? && !e.readFails && Live(old(cache.log), key, e.readAt).Some?
    // A hit is a tool-free response that was stored earlier, and costs no provider call.
    ensures result.Ok? && result.value.1 == Hit ==>
              && calls == 0 && cache.log == old(cache.log)
              && result.value.0.toolCalls == [] && Live(old(cache.log), key, e.readAt) == Some(result.value.0)
              && exists w :: w in old(cache.log) && w.Put? && w.key == key
                             && w.entry == result.value.0 && e.readAt < w.expiresAt
    ensures result == Err(CacheReadFailed) <==> RequestEligibility(request).Ok? && e.readFails && failClosed
    ensures result == Err(CacheReadFailed) ==> calls == 0
    // Everything else is one provider call, whose answer is returned as it is.
    ensures !(result == Err(CacheReadFailed) || (result.Ok? && result.value.1 == Hit)) ==>
              && calls == 1
              && if e.answer.None? then result == Err(ExecutorFailed)
                 else result.Ok? && result.value.0 == e.answer.value
    // A tool-free answer to an eligible request that missed is stored, and nothing else is.
    ensures result.Ok? && result.value.1 == MissStored <==>
              && RequestEligibility(request).Ok? && !e.readFails && Live(old(cache.log), key, e.readAt).None?
              && e.answer.Some? && e.answer.value.toolCalls == [] && !e.writeFails
              && LogApply(LogAfter(old(cache.log), cache.bounds, e.others), cache.bounds,
                          PutOp(key, e.answer.value, ttl, e.writeAt)).1 == Stored(Ok(()))
    // The other statuses name the reason the cache was not used.
    ensures result.Ok? && result.value.1 == BypassedIneligibleRequest <==>
              RequestEligibility(request).Err? && e.answer.Some?
    ensures result.Ok? && result.value.1 == BypassedReadFailure <==>
              RequestEligibility(request).Ok? && e.readFails && !failClosed && e.answer.Some?
    ensures result.Ok? && result.value.1 == MissIneligibleResponse <==>
              && RequestEligibility(request).Ok? && !e.readFails && Live(old(cache.log), key, e.readAt).None?
              && e.answer.Some? && e.answer.value.toolCalls != []
    ensures calls == 1 ==>
              cache.log == LogAfter(old(cache.log), cache.bounds, e.others)
                           + if result.Ok? && result.value.1 == MissStored
                             then [Put(key, e.answer.value, e.writeAt + ttl)] else []
  {
    calls := 0;
    if RequestEligibility(request).Err? {
      result, calls := Execute(cache, e, BypassedIneligibleRequest);
      return;
    }
    if e.readFails {
      if failClosed { return Err(CacheReadFailed), calls; }
      result, calls := Execute(cache, e, BypassedReadFailure);
      return;
    }
    var found := cache.Get(key, e.readAt);
    if found.Some? {
      LastIsLogged(cache.log, key);
      return Ok((found.value, Hit)), calls;
    }
    result, calls := Execute(cache, e, MissStoreFailed);
    if result.Err? { return; }
    var response := result.value.0;
    if response.toolCalls != [] { return Ok((response, MissIneligibleResponse)), calls; }
    if !e.writeFails {
      var stored := cache.Put(key, response, ttl, e.writeAt);
      if stored.Ok? { return Ok((response, MissStored)), calls; }
    }
  }

  // One executor call, while other callers use the cache.
  method Execute(cache: InMemoryResponseCache, e: Environment, status: Status)
      returns (result: Result<(Response, Status), CompletionError>, calls: nat)
    requires cache.Valid() && cache.clock <= e.readAt && Plausible(cache.clock, e)
    modifies cache
    ensures cache.Valid() && cache.clock <= e.writeAt && calls == 1
    ensures cache.log == LogAfter(old(cache.log), cache.bounds, e.others)
    ensures result == if e.answer.Some? then Ok((e.answer.value, status)) else Err(ExecutorFailed)
  {
    PerformAll(cache, e.others);
    calls := 1;
    result := if e.answer.Some? then Ok((e.answer.value, status)) else Err(ExecutorFailed);
  }
}
