// The JWKS cache of the OIDC authenticator: any number of concurrent lookups and explicit refreshes
// share a cache behind a read-write lock and one refresh gate. Each locked section is one step; a
// future may be dropped at any await point, which releases the gate it holds.
module JwksCache {
  import opened Common
  import opened JwkSelection

  datatype Config = Config(algorithm: Algorithm, ttl: nat, interval: nat)

  // OidcResourceServerConfig::new refuses symmetric algorithms.
  predicate ValidConfig(cfg: Config) {
    cfg.algorithm != OtherAlgorithm
  }

  datatype Reason = Explicit | ExpiredCache | UnknownKey

  datatype Cache = Cache(
    keys: map<string, Key>, lastSuccess: Option<nat>, lastAttempt: Option<nat>, lastUnknown: Option<nat>, failed: bool)

  datatype Lookup = Found(key: Key) | Missing | Refresh(reason: Reason) | Unavailable

  // No attempt yet, or the interval has passed since.
  predicate Allowed(attempt: Option<nat>, now: nat, interval: nat) {
    attempt.None? || now - attempt.value >= interval
  }

  // cache_lookup
  function CacheLookup(cfg: Config, cache: Cache, now: nat, kid: string): Lookup {
    var known := kid in cache.keys;
    var live := cache.lastSuccess.Some? && now - cache.lastSuccess.value < cfg.ttl;
    if live && known then Found(cache.keys[kid])
    else if !known && !Allowed(cache.lastUnknown, now, cfg.interval) then
      if cache.failed then Unavailable else Missing
    else if known && !Allowed(cache.lastAttempt, now, cfg.interval) then Unavailable
    else if known then Refresh(ExpiredCache)
    else Refresh(UnknownKey)
  }

  // Where a call stands. Waiting, Stamping and Fetching serve explicit refreshes too.
  datatype Pc =
    | Looking
    | Waiting
    | Holding
    | Stamping(reason: Reason)
    | Fetching(reason: Reason)
    | Reading
    | Done

  datatype Call = Call(kid: Option<string>, pc: Pc)

  datatype Fetch = Fetch(start: nat, reason: Reason)

  // A successful fetch: the set it returned, when, and for which call.
  datatype Good = Good(jwks: seq<Jwk>, at: nat, owner: nat)

  // A key handed to a caller, and how many successful fetches there had been.
  datatype Served = Served(call: nat, kid: string, key: Key, at: nat, goods: nat)

  datatype World = World(
    now: nat, cache: Cache, gate: Option<nat>, calls: seq<Call>, fetches: seq<Fetch>, goods: seq<Good>,
    served: seq<Served>)

  const Start: World := World(0, Cache(map[], None, None, None, false), None, [], [], [], [])

  datatype Step =
    | Tick(delay: nat)
    | Begin(kid: Option<string>)
    | Look(call: nat)
    | Acquire(call: nat)
    | Relook(call: nat)
    | Stamp(call: nat)
    | Store(call: nat, result: Option<seq<Jwk>>)
    | Read(call: nat)
    | Cancel(call: nat)

  predicate Enabled(w: World, s: Step) {
    match s
    case Tick(_) => true
    case Begin(_) => true
    case _ =>
      && s.call < |w.calls|
      && var pc := w.calls[s.call].pc;
         match s
         case Look(_) => pc.Looking? && w.calls[s.call].kid.Some?
         case Acquire(_) => pc.Waiting? && w.gate.None?
         case Relook(_) => pc.Holding? && w.calls[s.call].kid.Some?
         case Stamp(_) => pc.Stamping?
         case Store(_, _) => pc.Fetching?
         case Read(_) => pc.Reading? && w.calls[s.call].kid.Some?
         case _ => true
  }

  function Goto(w: World, c: nat, pc: Pc): World
    requires c < |w.calls|
  {
    w.(calls := w.calls[c := w.calls[c].(pc := pc)])
  }

  // A finished call lets go of the gate if it holds it.
  function Finish(w: World, c: nat): World
    requires c < |w.calls|
  {
    Goto(w, c, Done).(gate := if w.gate == Some(c) then None else w.gate)
  }

  function Serve(w: World, c: nat, key: Key): World
    requires c < |w.calls| && w.calls[c].kid.Some?
  {
    w.(served := w.served + [Served(c, w.calls[c].kid.value, key, w.now, |w.goods|)])
  }

  function LookStep(cfg: Config, w: World, c: nat, held: bool): World
    requires c < |w.calls| && w.calls[c].kid.Some?
  {
    match CacheLookup(cfg, w.cache, w.now, w.calls[c].kid.value)
    case Found(key) => Finish(Serve(w, c, key), c)
    case Refresh(reason) => Goto(w, c, if held then Stamping(reason) else Waiting)
    case _ => Finish(w, c)
  }

  function StampStep(w: World, c: nat): World
    requires c < |w.calls| && w.calls[c].pc.Stamping?
  {
    var reason := w.calls[c].pc.reason;
    var cache := w.cache.(lastAttempt := Some(w.now),
                          lastUnknown := if reason == UnknownKey then Some(w.now) else w.cache.lastUnknown);
    Goto(w.(cache := cache, fetches := w.fetches + [Fetch(w.now, reason)]), c, Fetching(reason))
  }

  function StoreStep(cfg: Config, w: World, c: nat, result: Option<seq<Jwk>>): World
    requires c < |w.calls| && w.calls[c].pc.Fetching?
  {
    match result
    case None => Finish(w.(cache := w.cache.(failed := true)), c)
    case Some(jwks) =>
      var w1 := w.(cache := w.cache.(keys := KeysOf(jwks, cfg.algorithm), lastSuccess := Some(w.now), failed := false),
                   goods := w.goods + [Good(jwks, w.now, c)]);
      if w.calls[c].kid.Some? then Goto(w1, c, Reading) else Finish(w1, c)
  }

  function Apply(cfg: Config, w: World, s: Step): World
    requires Enabled(w, s)
  {
    match s
    case Tick(delay) => w.(now := w.now + delay)
    case Begin(kid) => w.(calls := w.calls + [Call(kid, if kid.Some? then Looking else Waiting)])
    case Look(c) => LookStep(cfg, w, c, false)
    case Acquire(c) =>
      Goto(w, c, if w.calls[c].kid.Some? then Holding else Stamping(Explicit)).(gate := Some(c))
    case Relook(c) => LookStep(cfg, w, c, true)
    case Stamp(c) => StampStep(w, c)
    case Store(c, result) => StoreStep(cfg, w, c, result)
    case Read(c) =>
      var kid := w.calls[c].kid.value;
      Finish(if kid in w.cache.keys then Serve(w, c, w.cache.keys[kid]) else w, c)
    case Cancel(c) => Finish(w, c)
  }

  ghost predicate Runs(cfg: Config, w: World, steps: seq<Step>, end: World)
    decreases |steps|
  {
    if steps == [] then end == w
    else Enabled(w, steps[0]) && Runs(cfg, Apply(cfg, w, steps[0]), steps[1..], end)
  }

  // ---- the invariant ----

  predicate HoldsGate(pc: Pc) {
    pc.Holding? || pc.Stamping? || pc.Fetching? || pc.Reading?
  }

  // A lookup's fetch starts at least the interval after the fetches its reason is measured against:
  // an expired-cache fetch after every fetch, an unknown-key fetch after every unknown-key fetch.
  ghost predicate Spaced(cfg: Config, earlier: Fetch, later: Fetch) {
    && earlier.start <= later.start
    && (later.reason == ExpiredCache || (later.reason == UnknownKey && earlier.reason == UnknownKey) ==>
          later.start - earlier.start >= cfg.interval)
  }

  // The stamps in the cache are no older than any fetch they cover.
  ghost predicate Covered(cache: Cache, now: nat, fetch: Fetch) {
    && cache.lastAttempt.Some? && fetch.start <= cache.lastAttempt.value <= now
    && (fetch.reason == UnknownKey ==> cache.lastUnknown.Some? && fetch.start <= cache.lastUnknown.value)
  }

  ghost predicate FetchesOk(cfg: Config, w: World) {
    && (forall i, j :: 0 <= i < j < |w.fetches| ==> Spaced(cfg, w.fetches[i], w.fetches[j]))
    && forall i :: 0 <= i < |w.fetches| ==> Covered(w.cache, w.now, w.fetches[i])
  }

  ghost predicate CacheOk(cfg: Config, w: World) {
    && (w.goods == [] ==> w.cache.keys == map[] && w.cache.lastSuccess == None)
    && (w.goods != [] ==>
          var last := w.goods[|w.goods| - 1];
          w.cache.keys == KeysOf(last.jwks, cfg.algorithm) && w.cache.lastSuccess == Some(last.at) && last.at <= w.now)
  }

  ghost predicate CallOk(cfg: Config, w: World, c: nat)
    requires c < |w.calls|
  {
    var call := w.calls[c];
    && (HoldsGate(call.pc) <==> w.gate == Some(c))
    && (call.pc == Stamping(UnknownKey) ==> Allowed(w.cache.lastUnknown, w.now, cfg.interval))
    && (call.pc == Stamping(ExpiredCache) ==> Allowed(w.cache.lastAttempt, w.now, cfg.interval))
    && (call.pc.Reading? ==> w.goods != [] && w.goods[|w.goods| - 1].owner == c)
  }

  // The key came from the latest successful fetch of its moment, which was still fresh or was made by
  // this very call.
  ghost predicate ServedOk(cfg: Config, w: World, s: Served) {
    && 0 < s.goods <= |w.goods|
    && var latest := w.goods[s.goods - 1];
       && Selected(latest.jwks, cfg.algorithm, s.kid) == Some(s.key)
       && latest.at <= s.at
       && (s.at - latest.at < cfg.ttl || latest.owner == s.call)
  }

  ghost predicate Inv(cfg: Config, w: World) {
    && FetchesOk(cfg, w)
    && CacheOk(cfg, w)
    && (forall c :: 0 <= c < |w.calls| ==> CallOk(cfg, w, c))
    && (w.gate.Some? ==> w.gate.value < |w.calls|)
    && forall i :: 0 <= i < |w.served| ==> ServedOk(cfg, w, w.served[i])
  }

  lemma SameStampsKeepFetches(cfg: Config, w: World, w': World)
    requires FetchesOk(cfg, w) && w'.fetches == w.fetches && w.now <= w'.now
    requires w'.cache.lastAttempt == w.cache.lastAttempt && w'.cache.lastUnknown == w.cache.lastUnknown
    ensures FetchesOk(cfg, w')
  {
    forall i | 0 <= i < |w'.fetches| ensures Covered(w'.cache, w'.now, w'.fetches[i]) {
      assert Covered(w.cache, w.now, w.fetches[i]);
    }
  }

  lemma TickKeeps(cfg: Config, w: World, delay: nat)
    requires Inv(cfg, w)
    ensures Inv(cfg, Apply(cfg, w, Tick(delay)))
  {
    var w' := Apply(cfg, w, Tick(delay));
    SameStampsKeepFetches(cfg, w, w');
    forall c | 0 <= c < |w'.calls| ensures CallOk(cfg, w', c) { assert CallOk(cfg, w, c); }
    forall i | 0 <= i < |w'.served| ensures ServedOk(cfg, w', w'.served[i]) { assert ServedOk(cfg, w, w.served[i]); }
  }

  lemma FinishKeeps(cfg: Config, w: World, c: nat)
    requires Inv(cfg, w) && c < |w.calls|
    ensures Inv(cfg, Finish(w, c))
  {
    var w' := Finish(w, c);
    SameStampsKeepFetches(cfg, w, w');
    forall d | 0 <= d < |w'.calls| ensures CallOk(cfg, w', d) { assert CallOk(cfg, w, d); }
    forall i | 0 <= i < |w'.served| ensures ServedOk(cfg, w', w'.served[i]) { assert ServedOk(cfg, w, w.served[i]); }
  }

  // Handing out a cached key that is fresh, or that this call has just fetched.
  lemma ServeKeeps(cfg: Config, w: World, c: nat)
    requires Inv(cfg, w) && c < |w.calls| && w.calls[c].kid.Some? && w.calls[c].kid.value in w.cache.keys
    requires w.calls[c].pc.Reading? || (w.cache.lastSuccess.Some? && w.now - w.cache.lastSuccess.value < cfg.ttl)
    ensures Inv(cfg, Serve(w, c, w.cache.keys[w.calls[c].kid.value]))
  {
    var w' := Serve(w, c, w.cache.keys[w.calls[c].kid.value]);
    SameStampsKeepFetches(cfg, w, w');
    forall d | 0 <= d < |w'.calls| ensures CallOk(cfg, w', d) { assert CallOk(cfg, w, d); }
    forall i | 0 <= i < |w'.served| ensures ServedOk(cfg, w', w'.served[i]) {
      if i < |w.served| { assert ServedOk(cfg, w, w.served[i]); } else { assert CallOk(cfg, w, c); }
    }
  }

  lemma LookKeeps(cfg: Config, w: World, c: nat, held: bool)
    requires Inv(cfg, w) && c < |w.calls| && w.calls[c].kid.Some?
    requires if held then w.calls[c].pc.Holding? else w.calls[c].pc.Looking?
    ensures Inv(cfg, LookStep(cfg, w, c, held))
  {
    match CacheLookup(cfg, w.cache, w.now, w.calls[c].kid.value)
    case Found(key) =>
      ServeKeeps(cfg, w, c);
      FinishKeeps(cfg, Serve(w, c, key), c);
    case Refresh(reason) => RefreshKeeps(cfg, w, c, held, reason);
    case _ => FinishKeeps(cfg, w, c);
  }

  // A lookup that must refresh waits for the gate, or goes on to fetch if it holds it.
  lemma RefreshKeeps(cfg: Config, w: World, c: nat, held: bool, reason: Reason)
    requires Inv(cfg, w) && c < |w.calls| && w.calls[c].kid.Some?
    requires if held then w.calls[c].pc.Holding? else w.calls[c].pc.Looking?
    requires CacheLookup(cfg, w.cache, w.now, w.calls[c].kid.value) == Refresh(reason)
    ensures Inv(cfg, LookStep(cfg, w, c, held))
  {
    var w' := LookStep(cfg, w, c, held);
    SameStampsKeepFetches(cfg, w, w');
    forall d | 0 <= d < |w'.calls| ensures CallOk(cfg, w', d) { assert CallOk(cfg, w, d); }
    forall i | 0 <= i < |w'.served| ensures ServedOk(cfg, w', w'.served[i]) { assert ServedOk(cfg, w, w.served[i]); }
  }

  lemma StampKeeps(cfg: Config, w: World, c: nat)
    requires Inv(cfg, w) && c < |w.calls| && w.calls[c].pc.Stamping?
    ensures Inv(cfg, StampStep(w, c))
  {
    var w' := StampStep(w, c);
    assert CallOk(cfg, w, c);
    forall d | 0 <= d < |w'.calls| ensures CallOk(cfg, w', d) {
      if d != c { assert CallOk(cfg, w, d); }
    }
    forall i | 0 <= i < |w'.served| ensures ServedOk(cfg, w', w'.served[i]) { assert ServedOk(cfg, w, w.served[i]); }
  }

  lemma StoreKeeps(cfg: Config, w: World, c: nat, result: Option<seq<Jwk>>)
    requires Inv(cfg, w) && c < |w.calls| && w.calls[c].pc.Fetching?
    ensures Inv(cfg, StoreStep(cfg, w, c, result))
  {
    var w' := StoreStep(cfg, w, c, result);
    assert CallOk(cfg, w, c);
    SameStampsKeepFetches(cfg, w, w');
    forall d | 0 <= d < |w'.calls| ensures CallOk(cfg, w', d) {
      if d != c { assert CallOk(cfg, w, d); }
    }
    forall i | 0 <= i < |w'.served| ensures ServedOk(cfg, w', w'.served[i]) { assert ServedOk(cfg, w, w.served[i]); }
  }

  lemma EnterKeeps(cfg: Config, w: World, s: Step)
    requires Inv(cfg, w) && Enabled(w, s) && (s.Begin? || s.Acquire?)
    ensures Inv(cfg, Apply(cfg, w, s))
  {
    var w' := Apply(cfg, w, s);
    SameStampsKeepFetches(cfg, w, w');
    forall d | 0 <= d < |w'.calls| ensures CallOk(cfg, w', d) {
      if d < |w.calls| { assert CallOk(cfg, w, d); }
    }
    forall i | 0 <= i < |w'.served| ensures ServedOk(cfg, w', w'.served[i]) { assert ServedOk(cfg, w, w.served[i]); }
  }

  lemma ReadKeeps(cfg: Config, w: World, c: nat)
    requires Inv(cfg, w) && Enabled(w, Read(c))
    ensures Inv(cfg, Apply(cfg, w, Read(c)))
  {
    var kid := w.calls[c].kid.value;
    if kid in w.cache.keys {
      ServeKeeps(cfg, w, c);
      FinishKeeps(cfg, Serve(w, c, w.cache.keys[kid]), c);
    } else {
      FinishKeeps(cfg, w, c);
    }
  }

  lemma StepKeepsInv(cfg: Config, w: World, s: Step)
    requires Inv(cfg, w) && Enabled(w, s)
    ensures Inv(cfg, Apply(cfg, w, s))
  {
    match s
    case Tick(delay) => TickKeeps(cfg, w, delay);
    case Look(c) => LookKeeps(cfg, w, c, false);
    case Relook(c) => LookKeeps(cfg, w, c, true);
    case Stamp(c) => StampKeeps(cfg, w, c);
    case Store(c, result) => StoreKeeps(cfg, w, c, result);
    case Read(c) => ReadKeeps(cfg, w, c);
    case Cancel(c) => FinishKeeps(cfg, w, c);
    case _ => EnterKeeps(cfg, w, s);
  }

  lemma {:induction false} RunKeepsInv(cfg: Config, w: World, steps: seq<Step>, end: World)
    requires Inv(cfg, w) && Runs(cfg, w, steps, end)
    ensures Inv(cfg, end)
    decreases |steps|
  {
    if steps != [] {
      StepKeepsInv(cfg, w, steps[0]);
      RunKeepsInv(cfg, Apply(cfg, w, steps[0]), steps[1..], end);
    }
  }

  // ---- the theorems ----

  // At most one fetch is in flight.
  lemma OneFetchInFlight(cfg: Config, steps: seq<Step>, w: World, c: nat, d: nat)
    requires Runs(cfg, Start, steps, w) && c < |w.calls| && d < |w.calls|
    requires w.calls[c].pc.Fetching? && w.calls[d].pc.Fetching?
    ensures c == d
  {
    RunKeepsInv(cfg, Start, steps, w);
    assert CallOk(cfg, w, c) && CallOk(cfg, w, d);
  }

  // Every key handed out belongs to the latest successful fetch of its moment, and that fetch was
  // younger than the TTL or made by the call itself. In particular a failed fetch never makes an
  // expired key reappear.
  lemma ServedKeysAreCurrent(cfg: Config, steps: seq<Step>, w: World, i: nat)
    requires Runs(cfg, Start, steps, w) && i < |w.served|
    ensures ServedOk(cfg, w, w.served[i])
  {
    RunKeepsInv(cfg, Start, steps, w);
  }

  // A lookup whose key is in the latest successful fetch, while that is younger than the TTL, gets that
  // key at once, whatever fetches have failed since.
  lemma FreshKeyIsServed(cfg: Config, steps: seq<Step>, w: World, c: nat, key: Key)
    requires Runs(cfg, Start, steps, w) && Enabled(w, Look(c)) && w.goods != []
    requires var latest := w.goods[|w.goods| - 1];
             w.now - latest.at < cfg.ttl && Selected(latest.jwks, cfg.algorithm, w.calls[c].kid.value) == Some(key)
    ensures var w' := Apply(cfg, w, Look(c));
            w'.served == w.served + [Served(c, w.calls[c].kid.value, key, w.now, |w.goods|)] && w'.calls[c].pc == Done
  {
    RunKeepsInv(cfg, Start, steps, w);
    KeysOfSelects(w.goods[|w.goods| - 1].jwks, cfg.algorithm);
  }

  lemma {:induction false} GoodsGrow(cfg: Config, w: World, steps: seq<Step>, end: World)
    requires Runs(cfg, w, steps, end)
    ensures w.goods <= end.goods && |w.served| <= |end.served|
    decreases |steps|
  {
    if steps != [] { GoodsGrow(cfg, Apply(cfg, w, steps[0]), steps[1..], end); }
  }

  // Over any stretch of any run in which no fetch succeeds, however many fail, the key map and its age
  // stay the same.
  lemma FailuresChangeNoKey(cfg: Config, steps: seq<Step>, w: World, more: seq<Step>, end: World)
    requires Runs(cfg, Start, steps, w) && Runs(cfg, w, more, end) && |end.goods| == |w.goods|
    ensures end.cache.keys == w.cache.keys && end.cache.lastSuccess == w.cache.lastSuccess
  {
    RunKeepsInv(cfg, Start, steps, w);
    RunKeepsInv(cfg, w, more, end);
    GoodsGrow(cfg, w, more, end);
  }

  // Once the latest successful fetch has expired, no failure brings its keys back: over any stretch in
  // which no fetch succeeds, only the call that made that fetch can still be given a key.
  lemma ExpiredKeysStayUnserved(cfg: Config, steps: seq<Step>, w: World, more: seq<Step>, end: World, i: nat)
    requires Runs(cfg, Start, steps, w) && Runs(cfg, w, more, end) && end.goods == w.goods != []
    requires w.now - w.goods[|w.goods| - 1].at >= cfg.ttl && |w.served| <= i < |end.served|
    ensures end.served[i].call == w.goods[|w.goods| - 1].owner
  {
    RunKeepsInv(cfg, Start, steps, w);
    ServedLater(cfg, w, more, end);
    RunKeepsInv(cfg, w, more, end);
    assert ServedOk(cfg, end, end.served[i]);
  }

  // What is served during a stretch is served at its time, from the fetches of its time.
  lemma {:induction false} ServedLater(cfg: Config, w: World, steps: seq<Step>, end: World)
    requires Runs(cfg, w, steps, end)
    ensures w.now <= end.now && |w.goods| <= |end.goods| && |w.served| <= |end.served|
    ensures forall i :: |w.served| <= i < |end.served| ==>
              w.now <= end.served[i].at && |w.goods| <= end.served[i].goods <= |end.goods|
    ensures w.served <= end.served
    decreases |steps|
  {
    if steps != [] {
      var next := Apply(cfg, w, steps[0]);
      ServedLater(cfg, next, steps[1..], end);
      ServedNow(cfg, w, steps[0]);
    }
  }

  lemma ServedNow(cfg: Config, w: World, s: Step)
    requires Enabled(w, s)
    ensures var w' := Apply(cfg, w, s);
            && w.now <= w'.now && |w.goods| <= |w'.goods| && w.served <= w'.served
            && forall i :: |w.served| <= i < |w'.served| ==>
                 w'.served[i].at == w.now && w'.served[i].goods == |w.goods| == |w'.goods|
  {
  }

  // The start times of the fetches with a reason that fall in the window [from, from + span].
  function StartsIn(fetches: seq<Fetch>, reason: Reason, from: nat, span: nat): seq<nat> {
    if fetches == [] then []
    else
      var last := fetches[|fetches| - 1];
      StartsIn(fetches[..|fetches| - 1], reason, from, span)
      + if last.reason == reason && from <= last.start <= from + span then [last.start] else []
  }

  ghost predicate Started(fetches: seq<Fetch>, reason: Reason, at: nat) {
    Fetch(at, reason) in fetches
  }

  ghost predicate SpacedTimes(t: seq<nat>, interval: nat, from: nat, span: nat) {
    && (forall i :: 0 <= i < |t| ==> from <= t[i] <= from + span)
    && forall i, j :: 0 <= i < j < |t| ==> t[j] - t[i] >= interval
  }

  lemma {:induction false} StartsAreSpaced(cfg: Config, fetches: seq<Fetch>, reason: Reason, from: nat, span: nat)
    requires reason != Explicit
    requires forall i, j :: 0 <= i < j < |fetches| ==> Spaced(cfg, fetches[i], fetches[j])
    ensures SpacedTimes(StartsIn(fetches, reason, from, span), cfg.interval, from, span)
    ensures forall x :: x in StartsIn(fetches, reason, from, span) ==> Started(fetches, reason, x)
    decreases |fetches|
  {
    if fetches != [] {
      var front, last := fetches[..|fetches| - 1], fetches[|fetches| - 1];
      StartsAreSpaced(cfg, front, reason, from, span);
      var t := StartsIn(front, reason, from, span);
      forall x | x in t ensures Started(fetches, reason, x) { assert Started(front, reason, x); }
      forall i | 0 <= i < |t| ensures last.reason == reason ==> last.start - t[i] >= cfg.interval {
        assert t[i] in t && Started(front, reason, t[i]);
        var k :| 0 <= k < |front| && front[k] == Fetch(t[i], reason);
        assert Spaced(cfg, fetches[k], last);
      }
    }
  }

  lemma {:induction false} SpacedTimesFit(t: seq<nat>, interval: nat, from: nat, span: nat)
    requires t != [] && SpacedTimes(t, interval, from, span)
    ensures (|t| - 1) * interval <= t[|t| - 1] - from
    decreases |t|
  {
    if |t| > 1 {
      var front := t[..|t| - 1];
      SpacedTimesFit(front, interval, from, span);
      assert (|t| - 1) * interval == (|front| - 1) * interval + interval;
    }
  }

  lemma ProductGrows(a: nat, b: nat, c: nat)
    requires a <= b
    ensures a * c <= b * c
  {
  }

  lemma CountBound(n: nat, interval: nat, span: nat)
    requires interval > 0 && n > 0 && (n - 1) * interval <= span
    ensures n <= span / interval + 1
  {
    var whole := span / interval;
    assert span < (whole + 1) * interval;
    if n - 1 > whole { ProductGrows(whole + 1, n - 1, interval); }
  }

  // In any window of length T, lookups start at most 2 * (T / interval + 1) fetches.
  lemma LookupFetchesAreRateBounded(cfg: Config, steps: seq<Step>, w: World, from: nat, span: nat)
    requires Runs(cfg, Start, steps, w) && cfg.interval > 0
    ensures |StartsIn(w.fetches, UnknownKey, from, span)| + |StartsIn(w.fetches, ExpiredCache, from, span)|
            <= 2 * (span / cfg.interval + 1)
  {
    RunKeepsInv(cfg, Start, steps, w);
    KindIsBounded(cfg, w, UnknownKey, from, span);
    KindIsBounded(cfg, w, ExpiredCache, from, span);
  }

  lemma KindIsBounded(cfg: Config, w: World, reason: Reason, from: nat, span: nat)
    requires Inv(cfg, w) && cfg.interval > 0 && reason != Explicit
    ensures |StartsIn(w.fetches, reason, from, span)| <= span / cfg.interval + 1
  {
    var t := StartsIn(w.fetches, reason, from, span);
    StartsAreSpaced(cfg, w.fetches, reason, from, span);
    if t != [] {
      SpacedTimesFit(t, cfg.interval, from, span);
      CountBound(|t|, cfg.interval, span);
    }
  }

  // ---- how far apart two fetches really are ----

  ghost predicate Reachable(cfg: Config, w: World) {
    exists steps :: Runs(cfg, Start, steps, w)
  }

  lemma {:induction false} RunsSnoc(cfg: Config, w: World, steps: seq<Step>, mid: World, s: Step)
    requires Runs(cfg, w, steps, mid) && Enabled(mid, s)
    ensures Runs(cfg, w, steps + [s], Apply(cfg, mid, s))
    decreases |steps|
  {
    if steps == [] {
      assert Runs(cfg, Apply(cfg, mid, s), [s][1..], Apply(cfg, mid, s));
    } else {
      RunsSnoc(cfg, Apply(cfg, w, steps[0]), steps[1..], mid, s);
      assert (steps + [s])[1..] == steps[1..] + [s];
    }
  }

  lemma Then(cfg: Config, w: World, s: Step) returns (w': World)
    requires Reachable(cfg, w) && Enabled(w, s)
    ensures w' == Apply(cfg, w, s) && Reachable(cfg, w')
  {
    var steps :| Runs(cfg, Start, steps, w);
    RunsSnoc(cfg, Start, steps, w, s);
    w' := Apply(cfg, w, s);
  }

  // An explicit refresh at time 0 stores key "a", and the cache then expires.
  lemma LoadedThenExpired(cfg: Config, jwk: Jwk) returns (w: World)
    requires jwk == Jwk(Some("a"), Some(cfg.algorithm), None, None, Some(1)) && cfg.algorithm != OtherAlgorithm
    ensures Reachable(cfg, w) && w.now == cfg.ttl + cfg.interval && w.gate.None? && |w.calls| == 1
    ensures w.cache.keys == map["a" := 1] && w.cache.lastSuccess == Some(0)
    ensures w.cache.lastAttempt == Some(0) && w.cache.lastUnknown == None && w.fetches == [Fetch(0, Explicit)]
  {
    assert Runs(cfg, Start, [], Start);
    w := Then(cfg, Start, Begin(None));
    w := Then(cfg, w, Acquire(0));
    w := Then(cfg, w, Stamp(0));
    OneKey(cfg, jwk);
    w := Then(cfg, w, Store(0, Some([jwk])));
    w := Then(cfg, w, Tick(cfg.ttl + cfg.interval));
  }

  lemma OneKey(cfg: Config, jwk: Jwk)
    requires jwk == Jwk(Some("a"), Some(cfg.algorithm), None, None, Some(1)) && cfg.algorithm != OtherAlgorithm
    ensures KeysOf([jwk], cfg.algorithm) == map["a" := 1]
  {
    assert [jwk][..0] == [] && [jwk][0].kid == Some("a");
    assert Carriers([jwk], "a") == [jwk];
  }

  // A lookup that finds it must refresh takes the gate and starts its fetch.
  lemma LookupFetches(cfg: Config, w0: World, kid: string, reason: Reason) returns (w: World)
    requires Reachable(cfg, w0) && w0.gate.None? && CacheLookup(cfg, w0.cache, w0.now, kid) == Refresh(reason)
    ensures Reachable(cfg, w) && w.now == w0.now && w.gate.None?
    ensures w.fetches == w0.fetches + [Fetch(w0.now, reason)]
    ensures w.cache == w0.cache.(lastAttempt := Some(w0.now),
                                 lastUnknown := if reason == UnknownKey then Some(w0.now) else w0.cache.lastUnknown)
  {
    var c := |w0.calls|;
    w := Then(cfg, w0, Begin(Some(kid)));
    w := Then(cfg, w, Look(c));
    w := Then(cfg, w, Acquire(c));
    w := Then(cfg, w, Relook(c));
    w := Then(cfg, w, Stamp(c));
    w := Then(cfg, w, Cancel(c));
  }

  ghost predicate AlwaysApart(cfg: Config, earlier: Reason, later: Reason) {
    forall w | Reachable(cfg, w) :: FetchesApart(cfg, w, earlier, later)
  }

  ghost predicate FetchesApart(cfg: Config, w: World, earlier: Reason, later: Reason) {
    forall i, j :: 0 <= i < j < |w.fetches| && w.fetches[i].reason == earlier && w.fetches[j].reason == later ==>
      w.fetches[j].start - w.fetches[i].start >= cfg.interval
  }

  // An explicit refresh takes the gate and starts its fetch, whatever the cache says.
  lemma ExplicitFetches(cfg: Config, w0: World) returns (w: World)
    requires Reachable(cfg, w0) && w0.gate.None?
    ensures Reachable(cfg, w) && w.now == w0.now && w.gate.None?
    ensures w.fetches == w0.fetches + [Fetch(w0.now, Explicit)]
    ensures w.cache == w0.cache.(lastAttempt := Some(w0.now))
  {
    var c := |w0.calls|;
    w := Then(cfg, w0, Begin(None));
    w := Then(cfg, w, Acquire(c));
    w := Then(cfg, w, Stamp(c));
    w := Then(cfg, w, Cancel(c));
  }

  // For each reason a run that has just started a fetch for it, "b" being unknown.
  lemma JustFetched(cfg: Config, reason: Reason) returns (w: World)
    requires ValidConfig(cfg)
    ensures Reachable(cfg, w) && w.gate.None? && w.fetches != [] && w.fetches[|w.fetches| - 1] == Fetch(w.now, reason)
    ensures "b" !in w.cache.keys && (reason != UnknownKey ==> w.cache.lastUnknown == None)
  {
    assert Runs(cfg, Start, [], Start);
    match reason
    case Explicit => w := ExplicitFetches(cfg, Start);
    case UnknownKey => w := LookupFetches(cfg, Start, "b", UnknownKey);
    case ExpiredCache =>
      w := LoadedThenExpired(cfg, Jwk(Some("a"), Some(cfg.algorithm), None, None, Some(1)));
      w := LookupFetches(cfg, w, "a", ExpiredCache);
  }

  lemma TogetherIsNotApart(cfg: Config, w: World, earlier: Reason, later: Reason)
    requires cfg.interval > 0 && Reachable(cfg, w) && |w.fetches| >= 2
    requires w.fetches[|w.fetches| - 2] == Fetch(w.now, earlier) && w.fetches[|w.fetches| - 1] == Fetch(w.now, later)
    ensures !AlwaysApart(cfg, earlier, later)
  {
    var i, j := |w.fetches| - 2, |w.fetches| - 1;
    assert w.fetches[j].start - w.fetches[i].start == 0;
    assert !FetchesApart(cfg, w, earlier, later);
  }

  lemma SpacedPairsAreApart(cfg: Config, earlier: Reason, later: Reason)
    requires later == ExpiredCache || (earlier == UnknownKey && later == UnknownKey) || cfg.interval == 0
    ensures AlwaysApart(cfg, earlier, later)
  {
    forall w | Reachable(cfg, w) ensures FetchesApart(cfg, w, earlier, later) {
      var steps :| Runs(cfg, Start, steps, w);
      RunKeepsInv(cfg, Start, steps, w);
      forall i, j | 0 <= i < j < |w.fetches| && w.fetches[i].reason == earlier && w.fetches[j].reason == later
        ensures w.fetches[j].start - w.fetches[i].start >= cfg.interval
      {
        assert Spaced(cfg, w.fetches[i], w.fetches[j]);
      }
    }
  }

  // The configured interval is documented as the minimum time between remote refresh attempts. It is
  // that exactly for pairs whose later fetch serves an expired key, and for two unknown-key fetches. In
  // every other pair (the later one explicit, or an unknown key's after an explicit refresh or an
  // expired key's) the two fetches can start at the same instant.
  lemma IntervalSeparatesFetchesIff(cfg: Config, earlier: Reason, later: Reason)
    requires ValidConfig(cfg)
    ensures AlwaysApart(cfg, earlier, later) <==>
              cfg.interval == 0 || later == ExpiredCache || (earlier == UnknownKey && later == UnknownKey)
  {
    if cfg.interval == 0 || later == ExpiredCache || (earlier == UnknownKey && later == UnknownKey) {
      SpacedPairsAreApart(cfg, earlier, later);
    } else {
      var before := JustFetched(cfg, earlier);
      var w;
      if later == Explicit {
        w := ExplicitFetches(cfg, before);
      } else {
        w := LookupFetches(cfg, before, "b", UnknownKey);
      }
      TogetherIsNotApart(cfg, w, earlier, later);
    }
  }
}
