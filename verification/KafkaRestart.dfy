// After which endings the application may run the same consumer again without losing a record.
module KafkaRestart {
  import opened Common
  import opened KafkaConsumer

  ghost predicate Lost(cfg: RetryConfig, w: World, id: RecordId) {
    !Waiting(w, id) && forall path :: !Settles(cfg, w, id, path)
  }

  const GOOD: Record := Record(Some([1]), None, Absent, Absent, None)

  // A first record whose delivery ends this way; a router failure and a dropped future need nothing wrong
  // with it.
  function Offending(ending: Ending): Record {
    if ending == Returned(RetryMetadata) then GOOD.(attempt := Malformed)
    else if ending == Returned(MissingPayload) then GOOD.(payload := None)
    else GOOD
  }

  // An application that runs the same consumer again after one of the losing endings reads on past the
  // unfinished record, and the next commit covers it.
  lemma ReenteringLosesARecord(cfg: RetryConfig, reenters: set<Ending>, ending: Ending)
      returns (steps: seq<Step>, w: World, id: RecordId)
    requires ValidConfig(cfg) && ending in LosingEndings(cfg) && ending in reenters
    ensures Runs(cfg, reenters, Start, steps, w) && Lost(cfg, w, id)
  {
    var p := Place(cfg.source, 0);
    id := RecordId(p, 0);
    steps, w := FirstFails(cfg, reenters, p, ending);
    steps, w := ReadOn(cfg, reenters, p, ending, steps, w);
    forall path ensures !Settles(cfg, w, id, path) {
      if |path| > 1 { var copy := path[1]; }
    }
  }

  ghost predicate After(w: World, p: Place, ending: Ending, committed: map<Place, nat>, wk: Worker,
                        handled: set<RecordId>) {
    w == World(map[p := [Offending(ending), GOOD]], committed, map[0 := wk], handled)
  }

  // Two records are produced and a worker takes over the partition.
  lemma Begin(cfg: RetryConfig, reenters: set<Ending>, p: Place, ending: Ending)
      returns (steps: seq<Step>, w: World)
    requires ValidConfig(cfg) && p.topic == cfg.source
    ensures Runs(cfg, reenters, Start, steps, w) && After(w, p, ending, map[], Worker(map[p := 0], Polling), {})
  {
    var r := Offending(ending);
    assert [] + [r] == [r] && [r] + [GOOD] == [r, GOOD];
    steps, w := Extend(cfg, reenters, Start, [], Start, Produce(p, r));
    steps, w := Extend(cfg, reenters, Start, steps, w, Produce(p, GOOD));
    assert w.logs == map[p := [r, GOOD]] && w.workers == map[];
    steps, w := Extend(cfg, reenters, Start, steps, w, Restart(0, false));
    assert w.workers == map[0 := Worker(map[], Polling)];
    steps, w := Extend(cfg, reenters, Start, steps, w, Assign(0, p));
    assert w.workers == map[0 := Worker(map[p := 0], Polling)];
  }

  // The first record is refused, or its handler's future is dropped, or it fails in the handler and again
  // in the router.
  lemma FirstFails(cfg: RetryConfig, reenters: set<Ending>, p: Place, ending: Ending)
      returns (steps: seq<Step>, w: World)
    requires ValidConfig(cfg) && p.topic == cfg.source && ending in LosingEndings(cfg)
    ensures Runs(cfg, reenters, Start, steps, w)
    ensures After(w, p, ending, map[], Worker(map[p := 1], Stopped(ending)), {})
  {
    steps, w := Begin(cfg, reenters, p, ending);
    steps, w := Extend(cfg, reenters, Start, steps, w, Receive(0, p));
    assert map[p := 0][p := 1] == map[p := 1];
    if ending == Returned(RetryMetadata) || ending == Returned(MissingPayload) {
      assert w.workers == map[0 := Worker(map[p := 1], Stopped(ending))];
    } else {
      assert w.workers == map[0 := Worker(map[p := 1], Handling(RecordId(p, 0)))];
      steps, w := HandlingEnds(cfg, reenters, p, ending, steps, w);
    }
  }

  lemma HandlingEnds(cfg: RetryConfig, reenters: set<Ending>, p: Place, ending: Ending, steps0: seq<Step>, w0: World)
      returns (steps: seq<Step>, w: World)
    requires ValidConfig(cfg) && Runs(cfg, reenters, Start, steps0, w0) && Offending(ending) == GOOD
    requires ending == Dropped || (ending.Returned? && ending.error in cfg.routerErrors)
    requires After(w0, p, ending, map[], Worker(map[p := 1], Handling(RecordId(p, 0))), {})
    ensures Runs(cfg, reenters, Start, steps, w)
    ensures After(w, p, ending, map[], Worker(map[p := 1], Stopped(ending)), {})
  {
    if ending == Dropped {
      steps, w := Extend(cfg, reenters, Start, steps0, w0, Drop(0));
    } else {
      steps, w := Extend(cfg, reenters, Start, steps0, w0, Dispatch(0, false));
      assert w.workers == map[0 := Worker(map[p := 1], Routing(RecordId(p, 0)))];
      steps, w := Extend(cfg, reenters, Start, steps, w, Acknowledge(0, Some(ending.error)));
    }
    assert w.workers == map[0 := Worker(map[p := 1], Stopped(ending))];
  }

  // The same consumer is run again: it handles and commits the second record.
  lemma ReadOn(cfg: RetryConfig, reenters: set<Ending>, p: Place, ending: Ending, steps0: seq<Step>, w0: World)
      returns (steps: seq<Step>, w: World)
    requires ValidConfig(cfg) && ending in reenters
    requires Runs(cfg, reenters, Start, steps0, w0)
    requires After(w0, p, ending, map[], Worker(map[p := 1], Stopped(ending)), {})
    ensures Runs(cfg, reenters, Start, steps, w)
    ensures After(w, p, ending, map[p := 2], Worker(map[p := 2], Polling), {RecordId(p, 1)})
  {
    steps, w := Extend(cfg, reenters, Start, steps0, w0, Restart(0, true));
    assert w.workers == map[0 := Worker(map[p := 1], Polling)];
    steps, w := Extend(cfg, reenters, Start, steps, w, Receive(0, p));
    assert map[p := 1][p := 2] == map[p := 2];
    assert w.workers == map[0 := Worker(map[p := 2], Handling(RecordId(p, 1)))];
    steps, w := CommitSecond(cfg, reenters, p, ending, steps, w);
  }

  lemma CommitSecond(cfg: RetryConfig, reenters: set<Ending>, p: Place, ending: Ending, steps0: seq<Step>,
                     w0: World)
      returns (steps: seq<Step>, w: World)
    requires ValidConfig(cfg) && Runs(cfg, reenters, Start, steps0, w0)
    requires After(w0, p, ending, map[], Worker(map[p := 2], Handling(RecordId(p, 1))), {})
    ensures Runs(cfg, reenters, Start, steps, w)
    ensures After(w, p, ending, map[p := 2], Worker(map[p := 2], Polling), {RecordId(p, 1)})
  {
    steps, w := Extend(cfg, reenters, Start, steps0, w0, Dispatch(0, true));
    assert w.workers == map[0 := Worker(map[p := 2], Committing(RecordId(p, 1)))];
    steps, w := Extend(cfg, reenters, Start, steps, w, Commit(0, true, true));
    assert w.workers == map[0 := Worker(map[p := 2], Polling)];
    assert w.committed == map[p := 2];
  }

  ghost predicate Reachable(cfg: RetryConfig, reenters: set<Ending>, w: World)
    requires ValidConfig(cfg)
  {
    exists steps :: Runs(cfg, reenters, Start, steps, w)
  }

  // Conservation holds of every run exactly when the application never runs the same consumer again after
  // a retry-metadata or missing-payload error, after an error its failure router can return, or after
  // dropping the run future. A receive or commit error is safe unless the router can return it too.
  lemma ConservationIffSafeReentry(cfg: RetryConfig, reenters: set<Ending>)
    requires ValidConfig(cfg)
    ensures Safe(cfg, reenters) <==> forall w, id :: Reachable(cfg, reenters, w) ==> !Lost(cfg, w, id)
  {
    if Safe(cfg, reenters) {
      forall w, id: RecordId | Reachable(cfg, reenters, w) ensures !Lost(cfg, w, id) {
        var steps :| Runs(cfg, reenters, Start, steps, w);
        if !Waiting(w, id) { NoRecordIsLost(cfg, reenters, steps, w, id); }
      }
    } else {
      var ending :| ending in reenters && ending in LosingEndings(cfg);
      var steps, w, id := ReenteringLosesARecord(cfg, reenters, ending);
      assert Reachable(cfg, reenters, w) && Lost(cfg, w, id);
    }
  }
}
