// RAG document ingestion: greedy embedding batches under two limits, and one whole upsert.
module RagIngestion {
  import opened Common

  datatype Chunk = Chunk(document: string, id: string, content: seq<nat>)

  datatype Input = Input(chunkId: string, content: seq<nat>)

  type Embedding = seq<int>

  datatype Record = Record(chunk: Chunk, model: string, embedding: Embedding)

  datatype Limits = Limits(maxInputs: nat, maxBytes: nat)

  datatype IngestionError =
    | LoadFailed | DocumentMismatch | ChunkFailed | EmptyChunks | ChunkDocumentMismatch | DuplicateChunkId
    | InputTooLarge | EmbedFailed | CountMismatch | DimensionMismatch | IndexFailed

  // EmbeddingBatchLimits::new accepts only positive limits.
  predicate ValidLimits(limits: Limits) {
    limits.maxInputs > 0 && limits.maxBytes > 0
  }

  function InputsOf(chunks: seq<Chunk>): (inputs: seq<Input>)
    ensures |inputs| == |chunks|
    ensures forall i :: 0 <= i < |chunks| ==> inputs[i] == Input(chunks[i].id, chunks[i].content)
  {
    seq(|chunks|, i requires 0 <= i < |chunks| => Input(chunks[i].id, chunks[i].content))
  }

  // ---- batches ----

  function Size(inputs: seq<Input>): nat {
    if inputs == [] then 0 else Size(inputs[..|inputs| - 1]) + |inputs[|inputs| - 1].content|
  }

  predicate Fits(batch: seq<Input>, limits: Limits) {
    |batch| <= limits.maxInputs && Size(batch) <= limits.maxBytes
  }

  function Concat<T>(batches: seq<seq<T>>): seq<T> {
    if batches == [] then [] else Concat(batches[..|batches| - 1]) + batches[|batches| - 1]
  }

  // A way to send the inputs, in order, in requests the provider accepts.
  ghost predicate Partition(batches: seq<seq<Input>>, inputs: seq<Input>, limits: Limits) {
    Concat(batches) == inputs && forall k :: 0 <= k < |batches| ==> Fits(batches[k], limits)
  }

  // No batch but the last could have taken the input that follows it.
  ghost predicate Greedy(batches: seq<seq<Input>>, limits: Limits) {
    && (forall k :: 0 <= k < |batches| ==> batches[k] != [])
    && forall k :: 0 <= k < |batches| - 1 ==> Full(batches, k, limits)
  }

  ghost predicate Full(batches: seq<seq<Input>>, k: nat, limits: Limits)
    requires k < |batches| - 1
  {
    batches[k + 1] != [] && !Fits(batches[k] + [batches[k + 1][0]], limits)
  }

  // ---- greedy is optimal ----

  function Upto<T>(batches: seq<seq<T>>, k: nat): nat
    requires k <= |batches|
  {
    |Concat(batches[..k])|
  }

  lemma {:induction false} ConcatSlices<T>(batches: seq<seq<T>>, k: nat)
    requires k < |batches|
    ensures Upto(batches, k) + |batches[k]| == Upto(batches, k + 1) <= |Concat(batches)|
    ensures Concat(batches)[Upto(batches, k)..Upto(batches, k + 1)] == batches[k]
    decreases |batches|
  {
    assert batches[..k + 1][..k] == batches[..k];
    if k == |batches| - 1 {
      assert batches[..k + 1] == batches;
    } else {
      var front := batches[..|batches| - 1];
      ConcatSlices(front, k);
      assert front[..k] == batches[..k] && front[..k + 1] == batches[..k + 1];
    }
  }

  lemma {:induction false} SizeConcat(a: seq<Input>, b: seq<Input>)
    ensures Size(a + b) == Size(a) + Size(b)
    decreases |b|
  {
    if b == [] {
      assert a + b == a;
    } else {
      assert (a + b)[..|a + b| - 1] == a + b[..|b| - 1];
      SizeConcat(a, b[..|b| - 1]);
    }
  }

  lemma SmallerFits(inputs: seq<Input>, a: nat, b: nat, c: nat, d: nat, limits: Limits)
    requires a <= b <= c <= d <= |inputs| && Fits(inputs[a..d], limits)
    ensures Fits(inputs[b..c], limits)
  {
    assert inputs[a..d] == inputs[a..b] + (inputs[b..c] + inputs[c..d]);
    SizeConcat(inputs[a..b], inputs[b..c] + inputs[c..d]);
    SizeConcat(inputs[b..c], inputs[c..d]);
  }

  lemma SliceNext(s: seq<Input>, a: nat, b: nat, c: nat, left: seq<Input>, right: seq<Input>)
    requires a <= b < c <= |s| && s[a..b] == left && s[b..c] == right
    ensures s[a..b + 1] == left + [right[0]]
  {
  }

  lemma NextInput(g: seq<seq<Input>>, k: nat)
    requires 0 < k < |g| && g[k] != []
    ensures Upto(g, k - 1) <= Upto(g, k) < |Concat(g)|
    ensures Concat(g)[Upto(g, k - 1)..Upto(g, k) + 1] == g[k - 1] + [g[k][0]]
  {
    ConcatSlices(g, k - 1);
    ConcatSlices(g, k);
    var a, b, c := Upto(g, k - 1), Upto(g, k), Upto(g, k + 1);
    assert a <= b < c;
    SliceNext(Concat(g), a, b, c, g[k - 1], g[k]);
  }

  // If another way has not sent more by batch k - 1, it cannot have sent more by batch k: its k-th
  // batch would hold greedy's k-th batch and the input greedy could not add to it.
  lemma NotOvertaken(g: seq<seq<Input>>, p: seq<seq<Input>>, inputs: seq<Input>, limits: Limits, k: nat)
    requires Partition(g, inputs, limits) && Greedy(g, limits) && Partition(p, inputs, limits)
    requires 0 < k < |g| && k <= |p| && Upto(p, k - 1) <= Upto(g, k - 1)
    ensures Upto(p, k) <= Upto(g, k)
  {
    ConcatSlices(p, k - 1);
    NextInput(g, k);
    assert Full(g, k - 1, limits);
    if Upto(g, k) < Upto(p, k) {
      SmallerFits(inputs, Upto(p, k - 1), Upto(g, k - 1), Upto(g, k) + 1, Upto(p, k), limits);
    }
  }

  // Greedy stays ahead: after any number of batches it has sent at least as much as any other way.
  lemma {:induction false} GreedyStaysAhead(g: seq<seq<Input>>, p: seq<seq<Input>>, inputs: seq<Input>, limits: Limits,
                                            k: nat)
    requires Partition(g, inputs, limits) && Greedy(g, limits) && Partition(p, inputs, limits)
    requires k <= |g| && k <= |p|
    ensures Upto(p, k) <= Upto(g, k)
    decreases k
  {
    if k == |g| {
      assert g[..k] == g;
      if k > 0 { ConcatSlices(p, k - 1); }
    } else if k > 0 {
      GreedyStaysAhead(g, p, inputs, limits, k - 1);
      NotOvertaken(g, p, inputs, limits, k);
    }
  }

  // The number of provider requests is the least possible.
  lemma GreedyIsOptimal(g: seq<seq<Input>>, p: seq<seq<Input>>, inputs: seq<Input>, limits: Limits)
    requires Partition(g, inputs, limits) && Greedy(g, limits) && Partition(p, inputs, limits)
    ensures |g| <= |p|
  {
    if |p| < |g| {
      GreedyStaysAhead(g, p, inputs, limits, |p|);
      assert p[..|p|] == p;
      ConcatSlices(g, |p|);
    }
  }

  // ---- the code ----

  // The n-th request to the embedding provider, None for a failure.
  type Provider = (nat, string, seq<Input>) -> Option<seq<Embedding>>

  // What sending these batches in order returns, None when some request fails or does not return one
  // vector per input.
  function Responses(provider: Provider, model: string, batches: seq<seq<Input>>): (vectors: Option<seq<Embedding>>)
    ensures vectors.Some? ==> |vectors.value| == |Concat(batches)|
    decreases |batches|
  {
    if batches == [] then Some([])
    else
      var before, last := Responses(provider, model, batches[..|batches| - 1]), batches[|batches| - 1];
      var answer := provider(|batches| - 1, model, last);
      if before.Some? && answer.Some? && |answer.value| == |last| then Some(before.value + answer.value) else None
  }

  // Each input gets the vector its own request returned for its place in that request.
  lemma {:induction false} ResponsePlacement(provider: Provider, model: string, batches: seq<seq<Input>>, k: nat,
                                             j: nat)
    requires Responses(provider, model, batches).Some? && k < |batches| && j < |batches[k]|
    ensures provider(k, model, batches[k]).Some? && |provider(k, model, batches[k]).value| == |batches[k]|
    ensures Upto(batches, k) + j < |Concat(batches)|
    ensures Responses(provider, model, batches).value[Upto(batches, k) + j] == provider(k, model, batches[k]).value[j]
    decreases |batches|
  {
    var front := batches[..|batches| - 1];
    if k < |batches| - 1 {
      ResponsePlacement(provider, model, front, k, j);
      assert front[..k] == batches[..k];
    }
  }

  // All vectors have the established dimension, and one is established once there is a vector.
  predicate Dimensioned(embeddings: seq<Embedding>, dimensions: Option<nat>) {
    && (dimensions.Some? <==> embeddings != [])
    && forall i :: 0 <= i < |embeddings| ==> dimensions == Some(|embeddings[i]|)
  }

  // The provider answers these batches with one vector per input, all of one dimension.
  ghost predicate Usable(provider: Provider, model: string, batches: seq<seq<Input>>) {
    var vectors := Responses(provider, model, batches);
    vectors.Some? && exists d :: Dimensioned(vectors.value, d)
  }

  lemma {:induction false} UsablePrefix(provider: Provider, model: string, batches: seq<seq<Input>>, m: nat)
    requires Usable(provider, model, batches) && m <= |batches|
    ensures Usable(provider, model, batches[..m])
    decreases |batches|
  {
    if m == |batches| {
      assert batches[..m] == batches;
    } else {
      var front := batches[..|batches| - 1];
      var before, all := Responses(provider, model, front).value, Responses(provider, model, batches).value;
      var d :| Dimensioned(all, d);
      assert forall i :: 0 <= i < |before| ==> all[i] == before[i];
      assert Dimensioned(before, if before == [] then None else d);
      UsablePrefix(provider, model, front, m);
      assert front[..m] == batches[..m];
    }
  }

  lemma MixedDimensions(embeddings: seq<Embedding>, batch: seq<Embedding>, i: nat, expected: Option<nat>)
    requires i < |batch| && Dimensioned(embeddings + batch[..i], expected)
    requires expected.Some? && |batch[i]| != expected.value
    ensures forall d :: !Dimensioned(embeddings + batch, d)
  {
    var all := embeddings + batch;
    assert all[0] == (embeddings + batch[..i])[0] && all[|embeddings| + i] == batch[i];
  }

  // embed_batch
  method EmbedBatch(provider: Provider, model: string, request: nat, inputs: seq<Input>, embeddings: seq<Embedding>,
                    dimensions: Option<nat>)
      returns (result: Result<(seq<Embedding>, Option<nat>), IngestionError>)
    requires Dimensioned(embeddings, dimensions)
    ensures result == Err(EmbedFailed) <==> provider(request, model, inputs).None?
    ensures result == Err(CountMismatch) <==>
              provider(request, model, inputs).Some? && |provider(request, model, inputs).value| != |inputs|
    ensures result.Ok? ==>
              var answer := provider(request, model, inputs);
              && answer.Some? && |answer.value| == |inputs|
              && result.value.0 == embeddings + answer.value
              && Dimensioned(result.value.0, result.value.1)
    ensures result == Err(DimensionMismatch) ==>
              && provider(request, model, inputs).Some?
              && forall d :: !Dimensioned(embeddings + provider(request, model, inputs).value, d)
    ensures result.Err? ==> result.error in {EmbedFailed, CountMismatch, DimensionMismatch}
  {
    var answer := provider(request, model, inputs);
    if answer.None? { return Err(EmbedFailed); }
    var batch := answer.value;
    if |batch| != |inputs| { return Err(CountMismatch); }
    var expected: Option<nat> := dimensions;
    var i := 0;
    while i < |batch|
      invariant 0 <= i <= |batch|
      invariant Dimensioned(embeddings + batch[..i], expected)
    {
      if expected.Some? {
        if |batch[i]| != expected.value {
          MixedDimensions(embeddings, batch, i, expected);
          return Err(DimensionMismatch);
        }
      } else {
        expected := Some(|batch[i]|);
      }
      assert embeddings + batch[..i + 1] == (embeddings + batch[..i]) + [batch[i]];
      i := i + 1;
    }
    assert batch[..i] == batch;
    result := Ok((embeddings + batch, expected));
  }

  lemma ConcatSnoc<T>(batches: seq<seq<T>>, batch: seq<T>)
    ensures Concat(batches + [batch]) == Concat(batches) + batch
  {
    assert (batches + [batch])[..|batches|] == batches;
  }

  ghost predicate AllFit(sent: seq<seq<Input>>, limits: Limits) {
    forall k :: 0 <= k < |sent| ==> Fits(sent[k], limits)
  }

  predicate NoneTooLarge(inputs: seq<Input>, limits: Limits) {
    forall i :: 0 <= i < |inputs| ==> |inputs[i].content| <= limits.maxBytes
  }

  // What the batching loop makes of the inputs it has seen: the batches sent and the one collected.
  function Split(inputs: seq<Input>, limits: Limits): (seq<seq<Input>>, seq<Input>) {
    if inputs == [] then ([], [])
    else Next(Split(inputs[..|inputs| - 1], limits), inputs[|inputs| - 1], limits)
  }

  function Next(split: (seq<seq<Input>>, seq<Input>), next: Input, limits: Limits): (seq<seq<Input>>, seq<Input>) {
    if split.1 != [] && !Fits(split.1 + [next], limits) then (split.0 + [split.1], [next])
    else (split.0, split.1 + [next])
  }

  function AllOf(split: (seq<seq<Input>>, seq<Input>)): seq<seq<Input>> {
    if split.1 == [] then split.0 else split.0 + [split.1]
  }

  lemma SendKeepsGreedy(sent: seq<seq<Input>>, open: seq<Input>, next: Input, limits: Limits)
    requires Greedy(sent + [open], limits) && AllFit(sent + [open], limits)
    requires Fits([next], limits) && !Fits(open + [next], limits)
    ensures Greedy(sent + [open] + [[next]], limits) && AllFit(sent + [open] + [[next]], limits)
  {
    var batches, more := sent + [open], sent + [open] + [[next]];
    forall k | 0 <= k < |more| - 1 ensures Full(more, k, limits) {
      if k < |batches| - 1 {
        assert Full(batches, k, limits) && more[k] == batches[k] && more[k + 1] == batches[k + 1];
      }
    }
  }

  lemma GrowKeepsGreedy(sent: seq<seq<Input>>, open: seq<Input>, next: Input, limits: Limits)
    requires Greedy(sent + [open], limits) && AllFit(sent + [open], limits) && Fits(open + [next], limits)
    ensures Greedy(sent + [open + [next]], limits) && AllFit(sent + [open + [next]], limits)
  {
    var batches, more := sent + [open], sent + [open + [next]];
    forall k | 0 <= k < |more| - 1 ensures Full(more, k, limits) {
      assert Full(batches, k, limits) && more[k] == batches[k] && more[k + 1][0] == batches[k + 1][0];
    }
    forall k | 0 <= k < |more| ensures more[k] != [] && Fits(more[k], limits) {
      if k < |sent| { assert more[k] == batches[k]; }
    }
  }

  ghost predicate GreedySplit(split: (seq<seq<Input>>, seq<Input>), inputs: seq<Input>, limits: Limits) {
    && Concat(split.0) + split.1 == inputs
    && (split.1 == [] ==> split.0 == [])
    && Greedy(AllOf(split), limits) && AllFit(AllOf(split), limits)
  }

  lemma NextIsGreedy(split: (seq<seq<Input>>, seq<Input>), inputs: seq<Input>, next: Input, limits: Limits)
    requires GreedySplit(split, inputs, limits) && Fits([next], limits)
    ensures GreedySplit(Next(split, next, limits), inputs + [next], limits)
  {
    var sent, open := split.0, split.1;
    if open == [] {
      assert open + [next] == [next] && sent + [[next]] == [[next]];
    } else if Fits(open + [next], limits) {
      GrowKeepsGreedy(sent, open, next, limits);
    } else {
      SendKeepsGreedy(sent, open, next, limits);
      ConcatSnoc(sent, open);
    }
  }

  lemma LastOfInputs(inputs: seq<Input>)
    requires inputs != []
    ensures inputs == inputs[..|inputs| - 1] + [inputs[|inputs| - 1]]
  {
  }

  // The loop's batches are a greedy partition of what it has seen.
  lemma {:induction false} SplitIsGreedy(inputs: seq<Input>, limits: Limits)
    requires ValidLimits(limits) && NoneTooLarge(inputs, limits)
    ensures GreedySplit(Split(inputs, limits), inputs, limits)
    decreases |inputs|
  {
    if inputs != [] {
      var front, next := inputs[..|inputs| - 1], inputs[|inputs| - 1];
      assert inputs == front + [next] by { LastOfInputs(inputs); }
      SplitIsGreedy(front, limits);
      FitsOneMore([], next, limits);
      NextIsGreedy(Split(front, limits), front, next, limits);
    }
  }

  lemma SizeSnoc(open: seq<Input>, next: Input)
    ensures Size(open + [next]) == Size(open) + |next.content|
  {
    assert (open + [next])[..|open|] == open;
  }

  // What is known between requests.
  ghost predicate Embedded(provider: Provider, model: string, sent: seq<seq<Input>>, embeddings: seq<Embedding>,
                           dimensions: Option<nat>) {
    Responses(provider, model, sent) == Some(embeddings) && Dimensioned(embeddings, dimensions)
  }

  method Flush(provider: Provider, model: string, sent: seq<seq<Input>>, open: seq<Input>, embeddings: seq<Embedding>,
               dimensions: Option<nat>)
      returns (error: Option<IngestionError>, embeddings': seq<Embedding>, dimensions': Option<nat>)
    requires Embedded(provider, model, sent, embeddings, dimensions)
    ensures error.None? ==> Embedded(provider, model, sent + [open], embeddings', dimensions')
    ensures error.Some? ==>
              !Usable(provider, model, sent + [open]) && error.value in {EmbedFailed, CountMismatch, DimensionMismatch}
  {
    assert (sent + [open])[..|sent|] == sent;
    var embedded := EmbedBatch(provider, model, |sent|, open, embeddings, dimensions);
    if embedded.Err? { return Some(embedded.error), embeddings, dimensions; }
    error, embeddings', dimensions' := None, embedded.value.0, embedded.value.1;
  }

  lemma SentFits(inputs: seq<Input>, limits: Limits)
    requires ValidLimits(limits) && NoneTooLarge(inputs, limits)
    ensures AllFit(Split(inputs, limits).0, limits)
    ensures AllFit(Split(inputs, limits).0 + [Split(inputs, limits).1], limits)
  {
    SplitIsGreedy(inputs, limits);
    var split := Split(inputs, limits);
    forall k | 0 <= k < |split.0| ensures Fits(split.0[k], limits) { assert AllOf(split)[k] == split.0[k]; }
  }

  lemma {:induction false} SplitGrows(inputs: seq<Input>, i: nat, limits: Limits)
    requires i <= |inputs|
    ensures Split(inputs[..i], limits).0 <= Split(inputs, limits).0
    decreases |inputs|
  {
    if i == |inputs| {
      assert inputs[..i] == inputs;
    } else {
      var front := inputs[..|inputs| - 1];
      SplitGrows(front, i, limits);
      assert front[..i] == inputs[..i];
    }
  }

  // A failed request is one of those any run over these inputs would make.
  lemma FailureIsFinal(provider: Provider, model: string, sent: seq<seq<Input>>, inputs: seq<Input>, i: nat,
                       limits: Limits)
    requires i <= |inputs| && sent == Split(inputs[..i], limits).0 && !Usable(provider, model, sent)
    ensures !Usable(provider, model, AllOf(Split(inputs, limits))) && sent <= AllOf(Split(inputs, limits))
  {
    var all := AllOf(Split(inputs, limits));
    SplitGrows(inputs, i, limits);
    assert all[..|sent|] == sent;
    if Usable(provider, model, all) { UsablePrefix(provider, model, all, |sent|); }
  }

  // One turn of the loop: the guard sends the open batch exactly when the next input does not fit in it.
  lemma SplitNext(inputs: seq<Input>, i: nat, sent: seq<seq<Input>>, open: seq<Input>, limits: Limits)
    requires ValidLimits(limits) && i < |inputs| && |inputs[i].content| <= limits.maxBytes
    requires (sent, open) == Split(inputs[..i], limits) && NoneTooLarge(inputs[..i], limits)
    ensures NoneTooLarge(inputs[..i + 1], limits)
    ensures Split(inputs[..i + 1], limits) ==
            if open != [] && (|open| >= limits.maxInputs || Size(open) > limits.maxBytes - |inputs[i].content|)
            then (sent + [open], [inputs[i]])
            else (sent, open + [inputs[i]])
    ensures Size(open + [inputs[i]]) == Size(open) + |inputs[i].content| && Size([inputs[i]]) == |inputs[i].content|
  {
    FitsOneMore(open, inputs[i], limits);
    assert inputs[..i + 1][..i] == inputs[..i];
  }

  // What is known after i inputs.
  ghost predicate Progress(provider: Provider, model: string, inputs: seq<Input>, i: nat, sent: seq<seq<Input>>,
                           open: seq<Input>, embeddings: seq<Embedding>, dimensions: Option<nat>, limits: Limits)
    requires i <= |inputs|
  {
    && NoneTooLarge(inputs[..i], limits)
    && (sent, open) == Split(inputs[..i], limits)
    && Embedded(provider, model, sent, embeddings, dimensions)
  }

  // Why the batching stopped early, and after which requests: the greedy batches up to the first one the
  // provider could not serve, or up to an input that is too large.
  ghost predicate Stopped(provider: Provider, model: string, inputs: seq<Input>, error: IngestionError,
                          sent: seq<seq<Input>>, limits: Limits) {
    && error in {InputTooLarge, EmbedFailed, CountMismatch, DimensionMismatch}
    && AllFit(sent, limits) && sent <= AllOf(Split(inputs, limits))
    && if error == InputTooLarge then !NoneTooLarge(inputs, limits) && Usable(provider, model, sent)
       else FirstFailure(provider, model, sent) && !Usable(provider, model, AllOf(Split(inputs, limits)))
  }

  // The last request is the first that could not be served.
  ghost predicate FirstFailure(provider: Provider, model: string, sent: seq<seq<Input>>) {
    sent != [] && !Usable(provider, model, sent) && Usable(provider, model, sent[..|sent| - 1])
  }

  lemma LastRequestFails(provider: Provider, model: string, sent: seq<seq<Input>>, open: seq<Input>,
                         embeddings: seq<Embedding>, dimensions: Option<nat>)
    requires Embedded(provider, model, sent, embeddings, dimensions) && !Usable(provider, model, sent + [open])
    ensures FirstFailure(provider, model, sent + [open])
  {
    assert (sent + [open])[..|sent|] == sent;
  }

  // One turn of the batching loop.
  method TakeInput(provider: Provider, model: string, inputs: seq<Input>, i: nat, sent: seq<seq<Input>>,
                   open: seq<Input>, bytes: nat, embeddings: seq<Embedding>, dimensions: Option<nat>, limits: Limits)
      returns (error: Option<IngestionError>, sent': seq<seq<Input>>, open': seq<Input>, bytes': nat,
               embeddings': seq<Embedding>, dimensions': Option<nat>)
    requires ValidLimits(limits) && i < |inputs| && bytes == Size(open)
    requires Progress(provider, model, inputs, i, sent, open, embeddings, dimensions, limits)
    ensures error.None? ==>
              && Progress(provider, model, inputs, i + 1, sent', open', embeddings', dimensions', limits)
              && bytes' == Size(open')
    ensures error.Some? ==> Stopped(provider, model, inputs, error.value, sent', limits)
  {
    error, sent', open', bytes', embeddings', dimensions' := None, sent, open, bytes, embeddings, dimensions;
    SentFits(inputs[..i], limits);
    var next := inputs[i];
    if |next.content| > limits.maxBytes {
      SplitGrows(inputs, i, limits);
      error := Some(InputTooLarge);
      return;
    }
    SplitNext(inputs, i, sent, open, limits);
    if open != [] && (|open| >= limits.maxInputs || bytes > limits.maxBytes - |next.content|) {
      error, embeddings', dimensions' := Flush(provider, model, sent, open, embeddings, dimensions);
      sent' := sent + [open];
      if error.Some? {
        FailureIsFinal(provider, model, sent', inputs, i + 1, limits);
        LastRequestFails(provider, model, sent, open, embeddings, dimensions);
        return;
      }
      open', bytes' := [], 0;
      assert open' + [next] == [next];
    }
    open', bytes' := open' + [next], bytes' + |next.content|;
  }

  // The batching loop of ingest, up to the flush of the last batch.
  method SendBatches(inputs: seq<Input>, model: string, limits: Limits, provider: Provider)
      returns (error: Option<IngestionError>, sent: seq<seq<Input>>, open: seq<Input>,
               embeddings: seq<Embedding>, dimensions: Option<nat>)
    requires ValidLimits(limits)
    ensures error.None? ==> Progress(provider, model, inputs, |inputs|, sent, open, embeddings, dimensions, limits)
    ensures error.Some? ==> Stopped(provider, model, inputs, error.value, sent, limits)
  {
    error, sent, open, embeddings, dimensions := None, [], [], [], None;
    var bytes := 0;
    var i := 0;
    while i < |inputs|
      invariant 0 <= i <= |inputs| && error.None? && bytes == Size(open)
      invariant Progress(provider, model, inputs, i, sent, open, embeddings, dimensions, limits)
    {
      error, sent, open, bytes, embeddings, dimensions :=
        TakeInput(provider, model, inputs, i, sent, open, bytes, embeddings, dimensions, limits);
      if error.Some? { return; }
      i := i + 1;
    }
  }

  // Every input fits a request and the provider serves the greedy batches.
  ghost predicate Embeddable(provider: Provider, model: string, inputs: seq<Input>, limits: Limits) {
    NoneTooLarge(inputs, limits) && Usable(provider, model, AllOf(Split(inputs, limits)))
  }

  // On success the requests are a greedy, hence smallest, partition of the inputs; on every path each
  // request fits the provider's limits, and a failure stops after the first request that was not served.
  method EmbedAll(chunks: seq<Chunk>, model: string, limits: Limits, provider: Provider)
      returns (result: Result<seq<Embedding>, IngestionError>, sent: seq<seq<Input>>)
    requires ValidLimits(limits)
    ensures AllFit(sent, limits)
    ensures result.Ok? ==>
              && Partition(sent, InputsOf(chunks), limits) && Greedy(sent, limits)
              && |result.value| == |chunks|
              && exists dimensions :: Embedded(provider, model, sent, result.value, dimensions)
    ensures result.Ok? <==> Embeddable(provider, model, InputsOf(chunks), limits)
    ensures result.Ok? ==> sent == AllOf(Split(InputsOf(chunks), limits))
    ensures result.Err? ==> Stopped(provider, model, InputsOf(chunks), result.error, sent, limits)
  {
    var inputs := InputsOf(chunks);
    var error, open, embeddings, dimensions;
    error, sent, open, embeddings, dimensions := SendBatches(inputs, model, limits, provider);
    if error.Some? { return Err(error.value), sent; }
    assert inputs[..|inputs|] == inputs;
    SplitIsGreedy(inputs, limits);
    ConcatSnoc(sent, open);
    if open != [] {
      ghost var before, kinds := embeddings, dimensions;
      error, embeddings, dimensions := Flush(provider, model, sent, open, embeddings, dimensions);
      if error.Some? {
        LastRequestFails(provider, model, sent, open, before, kinds);
        return Err(error.value), sent + [open];
      }
      sent := sent + [open];
    }
    result := Ok(embeddings);
  }

  // The loop's test is the exact complement of fitting one more input; the subtraction cannot underflow.
  lemma FitsOneMore(open: seq<Input>, next: Input, limits: Limits)
    requires ValidLimits(limits) && |next.content| <= limits.maxBytes
    ensures Size(open + [next]) == Size(open) + |next.content|
    ensures Size([next]) == |next.content| && Fits([next], limits)
    ensures Fits(open + [next], limits) <==>
              !(|open| >= limits.maxInputs || Size(open) > limits.maxBytes - |next.content|)
  {
    SizeSnoc(open, next);
    SizeSnoc([], next);
    assert [] + [next] == [next];
  }

  // ---- ingest ----

  ghost predicate WellIdentified(document: string, chunks: seq<Chunk>) {
    && chunks != []
    && (forall i :: 0 <= i < |chunks| ==> chunks[i].document == document)
    && forall i, j :: 0 <= i < j < |chunks| ==> chunks[i].id != chunks[j].id
  }

  // A complete replacement for one document revision: chunk i beside the vector of input i.
  ghost predicate CompleteUpsert(document: string, model: string, chunks: seq<Chunk>, embeddings: seq<Embedding>,
                                 records: seq<Record>) {
    && WellIdentified(document, chunks) && |records| == |chunks| == |embeddings|
    && (forall i :: 0 <= i < |chunks| ==> records[i] == Record(chunks[i], model, embeddings[i]))
    && forall i, j :: 0 <= i < j < |chunks| ==> |embeddings[i]| == |embeddings[j]|
  }

  // The identity checks on the chunker's output.
  method CheckChunks(document: string, chunks: seq<Chunk>) returns (error: Option<IngestionError>)
    ensures error.None? <==> WellIdentified(document, chunks)
    ensures error.Some? ==> error.value in {EmptyChunks, ChunkDocumentMismatch, DuplicateChunkId}
  {
    if chunks == [] { return Some(EmptyChunks); }
    var ids: set<string> := {};
    var i := 0;
    while i < |chunks|
      invariant 0 <= i <= |chunks|
      invariant ids == set j | 0 <= j < i :: chunks[j].id
      invariant forall j :: 0 <= j < i ==> chunks[j].document == document
      invariant forall j, k :: 0 <= j < k < i ==> chunks[j].id != chunks[k].id
    {
      if chunks[i].document != document { return Some(ChunkDocumentMismatch); }
      if chunks[i].id in ids { return Some(DuplicateChunkId); }
      ids := ids + {chunks[i].id};
      i := i + 1;
    }
    error := None;
  }

  // RagIngestor::ingest. `loaded` and `chunked` are what the loader and chunker return, None for a
  // failure; `stored` is the vector index's verdict. All or nothing reaches the index.
  method Ingest(document: string, model: string, loaded: Option<string>, chunked: Option<seq<Chunk>>, limits: Limits,
                provider: Provider, stored: bool)
      returns (result: Result<nat, IngestionError>, sent: seq<seq<Input>>, upserts: seq<seq<Record>>)
    requires ValidLimits(limits)
    ensures result.Ok? ==> loaded == Some(document) && chunked.Some? && result.value == |chunked.value|
    ensures upserts != [] <==>
              && loaded == Some(document) && chunked.Some? && WellIdentified(document, chunked.value)
              && Embeddable(provider, model, InputsOf(chunked.value), limits)
    ensures result.Ok? <==> upserts != [] && stored
    ensures result == Err(LoadFailed) <==> loaded.None?
    ensures result == Err(DocumentMismatch) <==> loaded.Some? && loaded.value != document
    ensures result == Err(ChunkFailed) <==> loaded == Some(document) && chunked.None?
    ensures result == Err(IndexFailed) <==> upserts != [] && !stored
    ensures result.Ok? || result == Err(IndexFailed) ==>
              && |upserts| == 1 && chunked.Some?
              && Responses(provider, model, sent).Some?
              && CompleteUpsert(document, model, chunked.value, Responses(provider, model, sent).value, upserts[0])
              && Partition(sent, InputsOf(chunked.value), limits)
              && forall other :: Partition(other, InputsOf(chunked.value), limits) ==> |sent| <= |other|
    ensures result.Err? && result.error != IndexFailed ==> upserts == []
    ensures sent != [] ==> chunked.Some? && sent <= AllOf(Split(InputsOf(chunked.value), limits))
    ensures AllFit(sent, limits)
  {
    sent, upserts := [], [];
    if loaded.None? { return Err(LoadFailed), sent, upserts; }
    if loaded.value != document { return Err(DocumentMismatch), sent, upserts; }
    if chunked.None? { return Err(ChunkFailed), sent, upserts; }
    var chunks := chunked.value;
    var rejected := CheckChunks(document, chunks);
    if rejected.Some? { return Err(rejected.value), sent, upserts; }
    var embeddings;
    embeddings, sent := EmbedAll(chunks, model, limits, provider);
    if embeddings.Err? { return Err(embeddings.error), sent, upserts; }
    var vectors := embeddings.value;
    var records := seq(|chunks|, i requires 0 <= i < |chunks| => Record(chunks[i], model, vectors[i]));
    upserts := [records];
    forall other | Partition(other, InputsOf(chunks), limits) ensures |sent| <= |other| {
      GreedyIsOptimal(sent, other, InputsOf(chunks), limits);
    }
    result := if stored then Ok(|chunks|) else Err(IndexFailed);
  }
}
