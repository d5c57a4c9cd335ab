// The bounded TTL response cache, against a log of its writes.
module ResponseCache {
  import opened Common

  type Key = string

  datatype Response = Response(content: string, toolCalls: seq<string>)

  // AiCacheEntry: only a response without tool calls can be one.
  type Entry = r: Response | r.toolCalls == [] witness Response("", [])

  // Nanoseconds on a monotone clock.
  type Time = nat

  const MAX_CACHE_TTL: nat := 24 * 60 * 60 * 1_000_000_000

  datatype CacheError = ZeroTtl | TtlExceedsMaximum | TtlOutOfRange | CapacityExhausted

  // `horizon` is the last instant the platform can represent.
  datatype Bounds = Bounds(capacity: nat, horizon: Time)

  datatype Op =
    | GetOp(key: Key, now: Time)
    | PutOp(key: Key, entry: Entry, ttl: nat, now: Time)
    | InvalidateOp(key: Key, now: Time)

  datatype Answer = Found(entry: Option<Entry>) | Stored(result: Result<(), CacheError>) | Removed

  // ---- the meaning: a log of the successful writes ----

  datatype Write = Put(key: Key, entry: Entry, expiresAt: Time) | Invalidated(key: Key)

  type Log = seq<Write>

  function Last(log: Log, key: Key): Option<Write> {
    if log == [] then None
    else if log[|log| - 1].key == key then Some(log[|log| - 1])
    else Last(log[..|log| - 1], key)
  }

  // The last write of the key, if it is a put whose time to live is not over.
  function Live(log: Log, key: Key, now: Time): Option<Entry> {
    match Last(log, key)
    case Some(Put(_, entry, expiresAt)) => if expiresAt > now then Some(entry) else None
    case _ => None
  }

  function LiveKeys(log: Log, now: Time): set<Key> {
    set i | 0 <= i < |log| && Live(log, log[i].key, now).Some? :: log[i].key
  }

  // The checks put makes before it looks at the entries.
  function TtlError(bounds: Bounds, ttl: nat, now: Time): Option<CacheError> {
    if ttl == 0 then Some(ZeroTtl)
    else if ttl > MAX_CACHE_TTL then Some(TtlExceedsMaximum)
    else if now + ttl > bounds.horizon then Some(TtlOutOfRange)
    else None
  }

  // What an operation means: reads look the log up, writes append to it. A put is refused exactly when
  // its key is not live and `capacity` keys are.
  function LogApply(log: Log, bounds: Bounds, op: Op): (Log, Answer) {
    match op
    case GetOp(key, now) => (log, Found(Live(log, key, now)))
    case PutOp(key, entry, ttl, now) =>
      var error := TtlError(bounds, ttl, now);
      if error.Some? then (log, Stored(Err(error.value)))
      else if Live(log, key, now).None? && |LiveKeys(log, now)| == bounds.capacity
      then (log, Stored(Err(CapacityExhausted)))
      else (log + [Put(key, entry, now + ttl)], Stored(Ok(())))
    case InvalidateOp(key, _) => (log + [Invalidated(key)], Removed)
  }

  // ---- the code: a bounded map ----

  datatype Slot = Slot(entry: Entry, expiresAt: Time)

  type Entries = map<Key, Slot>

  function Retain(entries: Entries, now: Time): Entries {
    map k | k in entries && entries[k].expiresAt > now :: entries[k]
  }

  function CacheApply(entries: Entries, bounds: Bounds, op: Op): (Entries, Answer) {
    match op
    case GetOp(key, now) =>
      if key in entries && entries[key].expiresAt > now then (entries, Found(Some(entries[key].entry)))
      else (entries - {key}, Found(None))
    case PutOp(key, entry, ttl, now) =>
      var error := TtlError(bounds, ttl, now);
      if error.Some? then (entries, Stored(Err(error.value)))
      else
        var kept := Retain(entries, now);
        if key !in kept && |kept| == bounds.capacity then (kept, Stored(Err(CapacityExhausted)))
        else (kept[key := Slot(entry, now + ttl)], Stored(Ok(())))
    case InvalidateOp(key, _) => (entries - {key}, Removed)
  }

  // ---- refinement ----

  // A retained entry is the last write of its key; a missing key has no put that is live at `clock`.
  ghost predicate SlotOk(entries: Entries, log: Log, clock: Time, k: Key) {
    if k in entries then Last(log, k) == Some(Put(k, entries[k].entry, entries[k].expiresAt))
    else Live(log, k, clock).None?
  }

  ghost predicate Refines(entries: Entries, log: Log, clock: Time, capacity: nat) {
    |entries| <= capacity && forall k :: SlotOk(entries, log, clock, k)
  }

  lemma LastAppend(log: Log, write: Write, key: Key)
    ensures Last(log + [write], key) == if write.key == key then Some(write) else Last(log, key)
  {
    assert (log + [write])[..|log|] == log;
  }

  lemma {:induction false} LastIsLogged(log: Log, key: Key)
    requires Last(log, key).Some?
    ensures Last(log, key).value in log && Last(log, key).value.key == key
    decreases |log|
  {
    if log[|log| - 1].key != key { LastIsLogged(log[..|log| - 1], key); }
  }

  // Dropping the expired entries leaves exactly the live keys.
  lemma RetainKeepsLiveKeys(entries: Entries, log: Log, clock: Time, capacity: nat, now: Time)
    requires Refines(entries, log, clock, capacity) && clock <= now
    ensures Retain(entries, now).Keys == LiveKeys(log, now)
    ensures forall k :: k in LiveKeys(log, now) <==> Live(log, k, now).Some?
  {
    forall k ensures k in Retain(entries, now) <==> k in LiveKeys(log, now)
             ensures k in LiveKeys(log, now) <==> Live(log, k, now).Some? {
      assert SlotOk(entries, log, clock, k);
      if Live(log, k, now).Some? { LastIsLogged(log, k); }
    }
  }

  lemma RetainRefines(entries: Entries, log: Log, clock: Time, capacity: nat, now: Time)
    requires Refines(entries, log, clock, capacity) && clock <= now
    ensures Refines(Retain(entries, now), log, now, capacity)
  {
    var kept := Retain(entries, now);
    assert kept.Keys <= entries.Keys;
    SubsetIsSmaller(kept.Keys, entries.Keys);
    forall k ensures SlotOk(kept, log, now, k) { assert SlotOk(entries, log, clock, k); }
  }

  lemma SubsetIsSmaller<T>(a: set<T>, b: set<T>)
    requires a <= b
    ensures |a| <= |b|
  {
    assert b == a + (b - a);
  }

  lemma RemoveRefines(entries: Entries, log: Log, log': Log, clock: Time, capacity: nat, now: Time, key: Key)
    requires Refines(entries, log, clock, capacity) && clock <= now && Live(log', key, now).None?
    requires forall k :: k != key ==> Last(log', k) == Last(log, k)
    ensures Refines(entries - {key}, log', now, capacity)
  {
    var left := entries - {key};
    assert left.Keys <= entries.Keys;
    SubsetIsSmaller(left.Keys, entries.Keys);
    forall k ensures SlotOk(left, log', now, k) { assert SlotOk(entries, log, clock, k); }
  }

  lemma InsertRefines(kept: Entries, log: Log, now: Time, capacity: nat, key: Key, slot: Slot)
    requires Refines(kept, log, now, capacity) && (key in kept || |kept| < capacity)
    ensures Refines(kept[key := slot], log + [Put(key, slot.entry, slot.expiresAt)], now, capacity)
  {
    var entries, log' := kept[key := slot], log + [Put(key, slot.entry, slot.expiresAt)];
    assert entries.Keys == kept.Keys + {key};
    forall k ensures SlotOk(entries, log', now, k) {
      assert SlotOk(kept, log, now, k);
      LastAppend(log, Put(key, slot.entry, slot.expiresAt), k);
    }
  }

  lemma GetRefines(entries: Entries, log: Log, clock: Time, bounds: Bounds, key: Key, now: Time)
    requires Refines(entries, log, clock, bounds.capacity) && clock <= now
    ensures CacheApply(entries, bounds, GetOp(key, now)).1 == LogApply(log, bounds, GetOp(key, now)).1
    ensures Refines(CacheApply(entries, bounds, GetOp(key, now)).0, log, now, bounds.capacity)
  {
    assert SlotOk(entries, log, clock, key);
    if key in entries && entries[key].expiresAt > now {
      forall k ensures SlotOk(entries, log, now, k) { assert SlotOk(entries, log, clock, k); }
    } else {
      RemoveRefines(entries, log, log, clock, bounds.capacity, now, key);
    }
  }

  lemma PutRefines(entries: Entries, log: Log, clock: Time, bounds: Bounds, key: Key, entry: Entry, ttl: nat, now: Time)
    requires Refines(entries, log, clock, bounds.capacity) && clock <= now
    ensures var op := PutOp(key, entry, ttl, now);
            && CacheApply(entries, bounds, op).1 == LogApply(log, bounds, op).1
            && Refines(CacheApply(entries, bounds, op).0, LogApply(log, bounds, op).0, now, bounds.capacity)
  {
    if TtlError(bounds, ttl, now).Some? {
      forall k ensures SlotOk(entries, log, now, k) { assert SlotOk(entries, log, clock, k); }
      return;
    }
    var kept := Retain(entries, now);
    RetainKeepsLiveKeys(entries, log, clock, bounds.capacity, now);
    RetainRefines(entries, log, clock, bounds.capacity, now);
    assert |kept| == |kept.Keys|;
    assert key in kept.Keys <==> Live(log, key, now).Some?;
    if key in kept || |kept| < bounds.capacity {
      InsertRefines(kept, log, now, bounds.capacity, key, Slot(entry, now + ttl));
    }
  }

  // Whatever the clock says, so long as it does not go back, the map answers as its log does.
  lemma StepRefines(entries: Entries, log: Log, clock: Time, bounds: Bounds, op: Op)
    requires Refines(entries, log, clock, bounds.capacity) && clock <= op.now
    ensures CacheApply(entries, bounds, op).1 == LogApply(log, bounds, op).1
    ensures Refines(CacheApply(entries, bounds, op).0, LogApply(log, bounds, op).0, op.now, bounds.capacity)
  {
    match op
    case GetOp(key, now) => GetRefines(entries, log, clock, bounds, key, now);
    case PutOp(key, entry, ttl, now) => PutRefines(entries, log, clock, bounds, key, entry, ttl, now);
    case InvalidateOp(key, now) =>
      forall k ensures Last(log + [Invalidated(key)], k) == if k == key then Some(Invalidated(key)) else Last(log, k) {
        LastAppend(log, Invalidated(key), k);
      }
      RemoveRefines(entries, log, log + [Invalidated(key)], clock, bounds.capacity, now, key);
  }

  // ---- whole runs ----

  ghost predicate Monotone(clock: Time, ops: seq<Op>) {
    && (forall i :: 0 <= i < |ops| ==> clock <= ops[i].now)
    && forall i, j :: 0 <= i < j < |ops| ==> ops[i].now <= ops[j].now
  }

  function CacheRun(entries: Entries, bounds: Bounds, ops: seq<Op>): seq<Answer>
    decreases |ops|
  {
    if ops == [] then []
    else
      var (after, answer) := CacheApply(entries, bounds, ops[0]);
      [answer] + CacheRun(after, bounds, ops[1..])
  }

  function LogRun(log: Log, bounds: Bounds, ops: seq<Op>): seq<Answer>
    decreases |ops|
  {
    if ops == [] then []
    else
      var (after, answer) := LogApply(log, bounds, ops[0]);
      [answer] + LogRun(after, bounds, ops[1..])
  }

  // Over every run under a monotone clock the bounded map gives the answers of the write log.
  lemma {:induction false} RunRefines(entries: Entries, log: Log, clock: Time, bounds: Bounds, ops: seq<Op>)
    requires Refines(entries, log, clock, bounds.capacity) && Monotone(clock, ops)
    ensures CacheRun(entries, bounds, ops) == LogRun(log, bounds, ops)
    decreases |ops|
  {
    if ops != [] {
      StepRefines(entries, log, clock, bounds, ops[0]);
      RunRefines(CacheApply(entries, bounds, ops[0]).0, LogApply(log, bounds, ops[0]).0, ops[0].now, bounds, ops[1..]);
    }
  }

  lemma CacheMeansItsLog(bounds: Bounds, ops: seq<Op>)
    requires Monotone(0, ops)
    ensures CacheRun(map[], bounds, ops) == LogRun([], bounds, ops)
  {
    RunRefines(map[], [], 0, bounds, ops);
  }

  // InMemoryAiResponseCache: each method body is one section under the mutex, `now` its clock reading.
  // `log` and `clock` are what it stands for.
  class InMemoryResponseCache {
    var entries: Entries
    const bounds: Bounds
    ghost var log: Log
    ghost var clock: Time

    ghost predicate Valid() reads this {
      Refines(entries, log, clock, bounds.capacity)
    }

    // InMemoryAiResponseCache::new; None is InvalidInMemoryCapacity.
    static method New(bounds: Bounds) returns (cache: Option<InMemoryResponseCache>)
      ensures cache.Some? <==> 1 <= bounds.capacity <= 10000
      ensures cache.Some? ==>
                && fresh(cache.value) && cache.value.Valid() && cache.value.bounds == bounds
                && cache.value.log == [] && cache.value.clock == 0
    {
      if !(1 <= bounds.capacity <= 10000) { return None; }
      var created := new InMemoryResponseCache(bounds);
      return Some(created);
    }

    constructor (bounds: Bounds)
      ensures Valid() && this.bounds == bounds && log == [] && clock == 0
    {
      this.bounds := bounds;
      entries, log, clock := map[], [], 0;
    }

    method Get(key: Key, now: Time) returns (found: Option<Entry>)
      requires Valid() && clock <= now
      modifies this
      ensures Valid() && clock == now && log == old(log)
      ensures found == Live(log, key, now)
    {
      GetRefines(entries, log, clock, bounds, key, now);
      found := None;
      if key in entries && entries[key].expiresAt > now { found := Some(entries[key].entry); }
      if found.None? { entries := entries - {key}; }
      clock := now;
    }

    method Put(key: Key, entry: Entry, ttl: nat, now: Time) returns (result: Result<(), CacheError>)
      requires Valid() && clock <= now
      modifies this
      ensures Valid() && clock == now
      ensures result == Err(CapacityExhausted) <==>
                && TtlError(bounds, ttl, now).None? && Live(old(log), key, now).None?
                && |LiveKeys(old(log), now)| == bounds.capacity
      ensures (log, Stored(result)) == LogApply(old(log), bounds, PutOp(key, entry, ttl, now))
    {
      PutRefines(entries, log, clock, bounds, key, entry, ttl, now);
      log, clock := LogApply(log, bounds, PutOp(key, entry, ttl, now)).0, now;
      if ttl == 0 { return Err(ZeroTtl); }
      if ttl > MAX_CACHE_TTL { return Err(TtlExceedsMaximum); }
      if now + ttl > bounds.horizon { return Err(TtlOutOfRange); }
      entries := Retain(entries, now);
      if key !in entries && |entries| == bounds.capacity { return Err(CapacityExhausted); }
      entries := entries[key := Slot(entry, now + ttl)];
      return Ok(());
    }

    method Invalidate(key: Key, now: Time)
      requires Valid() && clock <= now
      modifies this
      ensures Valid() && clock == now && log == old(log) + [Invalidated(key)]
    {
      StepRefines(entries, log, clock, bounds, InvalidateOp(key, now));
      entries := entries - {key};
      log, clock := log + [Invalidated(key)], now;
    }

    // One operation of another caller.
    method Perform(op: Op) returns (answer: Answer)
      requires Valid() && clock <= op.now
      modifies this
      ensures Valid() && clock == op.now
      ensures (log, answer) == LogApply(old(log), bounds, op)
    {
      match op
      case GetOp(key, now) =>
        var found := Get(key, now);
        answer := Found(found);
      case PutOp(key, entry, ttl, now) =>
        var result := Put(key, entry, ttl, now);
        answer := Stored(result);
      case InvalidateOp(key, now) =>
        Invalidate(key, now);
        answer := Removed;
    }
  }
}
