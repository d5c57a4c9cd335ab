# Rustee core protocols in Dafny

A model of the places in the Rustee web framework where a small protocol or algorithm carries a guarantee over whole runs, with proofs of those guarantees. Each module follows one component.

- `KafkaConsumer`, `KafkaRestart`, `KafkaReceiveLoop`: the manual-commit consumer with failure routing. Workers share a broker of growing logs; each await of the receive loop ends a step, and failures, crashes, rebalances and outside producers come between any two steps.
- `EvaluationLedger`, `EvaluationStore`: the evaluation-run ledger, atomic in memory and as two SQL statements per operation in PostgreSQL, under any number of concurrent submitters and reconcilers.
- `BatchLedger`, `BatchSubmission`: the batch-submission ledger and the reserve, load, submit, record coordinator over it.
- `RagIngestion`: greedy embedding batches under two limits, their optimality, and the one complete upsert.
- `SseFrames`, `SseParser`, `SseReader`, `SseResumption`, `StreamPrinter`: server-sent events (section 9.2 of the WHATWG HTML Living Standard) split, parsed and read by the MCP client, over resumed bodies too, printed by the web adapter, and the round trip between the two.
- `McpEventStream`, `McpSession`: the resumable notification stream with its byte, attempt and sleep budgets, and the client's session slot with its initialize lock and no-replay rule.
- `JwkSelection`, `JwksCache`: key selection from a JWK set (sections 4.2, 4.3 and 4.5 of RFC 7517) and the gated, rate-limited key cache.
- `ResponseCache`, `CachedCompletion`: the bounded TTL cache against a log of its writes, and the completion wrapper.
- `ConfigMerge`: deep merge of layered configuration and what it means at a path.

Concurrent protocols are step systems: `Enabled` and `Apply` say what a step does, `Runs` is a run, `Inv` an invariant that every step keeps, and the theorems speak of every run from the start. Objects that the source updates in place are classes, and its loops are methods proved against specification functions. Clocks, brokers, servers, executors and serializers are parameters or steps that may succeed, fail, or take effect and still report a failure.

Three promises hold only under a condition, and each has its exact condition as a lemma.

- `run_with_failure_routing` returns an error without committing. Running the same consumer again then reads on from where it stood. After a retry-metadata or missing-payload error, after an error the failure router returned, or after the run future was dropped, that passes over the unfinished record and the next commit covers it. `ConservationIffSafeReentry`: for the set of endings after which the application runs the same consumer again, no record is lost if and only if the set holds none of these. A receive or commit error is safe unless the router can return it as well, and a new consumer is always safe.
- An SSE response over the byte limit that does not declare its length can be delivered or refused depending on how it was cut into chunks. `OversizedChunkIndependenceIff`: the outcome is independent of chunking if and only if the first limit bytes decide nothing.
- `with_minimum_refresh_interval` is documented as the minimum time between remote refresh attempts. The code keeps one stamp for unknown keys and one for all attempts, and consults only the first for an unknown key. An explicit refresh consults neither. `IntervalSeparatesFetchesIff`: with a positive interval the documented spacing holds exactly for pairs whose later fetch serves an expired key and for two unknown-key fetches. A later explicit refresh, and an unknown-key fetch after an explicit refresh or an expired key's, can start at the same instant as the earlier fetch.

## Model

| member | source | states |
|---|---|---|
| KafkaConsumer.AfterFailure | crates/rustee-events-kafka/src/failure.rs:82-90 | a failed delivery is retried exactly while attempts remain, the next attempt is the old one plus one and lies in 2..max_deliveries, so the saturating increment never saturates |
| KafkaConsumer.RoutedIsFaithful | crates/rustee-events-kafka/src/failure/publisher.rs:145-188 | the record written for a failed delivery accounts for it and keeps its payload, key and origin, with the right topic and attempt |
| KafkaConsumer.StepKeepsInv | crates/rustee-events-kafka/src/consumer.rs:193-232 | every step of every worker (receive, dispatch, route with any router error, commit, dropped future, crash, restart with a new or the same consumer, rebalance) keeps: routed records are faithful and, where re-entering is safe, everything below a committed offset or behind an intact read position is accounted for |
| KafkaConsumer.RunKeepsInv | crates/rustee-events-kafka/src/consumer.rs:193-232 | the same for whole runs of any number of workers |
| KafkaConsumer.FollowRetries | crates/rustee-events-kafka/src/failure.rs:82-90 | from a record below the committed offset the routed copies form a chain that ends handled, dead-lettered or not yet committed, and attempt plus chain length stays within max_deliveries |
| KafkaConsumer.NoRecordIsLost | crates/rustee-events-kafka/src/consumer.rs:193-232 | in every run with crashes, dropped futures and router or commit failures that re-enters in place only after safe endings, every record below a committed offset was handled, dead-lettered, or has a bounded chain of retries that was or is still to be committed |
| KafkaConsumer.EveryChainSettles | crates/rustee-events-kafka/src/consumer.rs:193-232 | of the several chains a record may have, each that starts below a committed offset and goes no further ends handled, dead-lettered or waiting to be committed |
| KafkaConsumer.CaughtUpMeansFinished | crates/rustee-events-kafka/src/consumer.rs:193-232 | once the group has committed everything in the source and retry topics, every chain that no retry copy extends has ended handled or dead-lettered, and there is one |
| KafkaConsumer.RetriesAreBounded | crates/rustee-events-kafka/src/failure.rs:221-237 | every routed record repeats its cause and a retry carries an attempt between 2 and max_deliveries; a dead-lettered cause had used up its deliveries |
| KafkaConsumer.EveryChainIsBounded | crates/rustee-events-kafka/src/failure.rs:82-90 | in every run, along every retry chain the attempt grows by one per copy and stays within max_deliveries, so no chain is longer than that |
| KafkaConsumer.RefusedRecordBlocks | crates/rustee-events-kafka/src/consumer.rs:201-229 | a record the consumer refuses (bad attempt header, no payload) is never passed by a committed offset, where re-entering is safe |
| KafkaConsumer.PassedIsDeliverable | crates/rustee-events-kafka/src/consumer.rs:201-229 | every record below a committed offset exists and was deliverable |
| KafkaConsumer.RunGrows | crates/rustee-events-kafka/src/consumer.rs:193-232 | over a run logs only grow and a handled record stays handled |
| KafkaConsumer.MoreReentries | crates/rustee-events-kafka/src/consumer.rs:175-192 | allowing the application to re-enter after more endings only adds runs, which carries the loop into every policy |
| KafkaRestart.ReenteringLosesARecord | crates/rustee-events-kafka/src/consumer.rs:175-232 | for every configuration and each losing ending (a retry-metadata or missing-payload error, any error the router can return, a dropped future) there is a run in which running the same consumer again after it commits past a record that nothing settles |
| KafkaRestart.ConservationIffSafeReentry | crates/rustee-events-kafka/src/consumer.rs:175-232 | for the set of endings after which the application runs the same consumer again: no reachable state has a lost record if and only if the set is disjoint from retry metadata, missing payload, a dropped future and the errors the failure router can return |
| KafkaReceiveLoop.ValidateFailureRoute | crates/rustee-events-kafka/src/consumer.rs:236-255 | passes to the subscription test exactly when both route names are valid and the three topics differ, and is accepted exactly when the retry topic is then subscribed |
| KafkaReceiveLoop.Deliver | crates/rustee-events-kafka/src/consumer.rs:198-213 | receive, header and payload checks and dispatch are a run of the step system that commits nothing; it gets as far as commit or routing exactly for a readable, deliverable record |
| KafkaReceiveLoop.Route | crates/rustee-events-kafka/src/consumer.rs:205-224 | the loop passes on exactly the error the router returns, before or after persisting; on success the failed record has a routed copy; nothing is committed |
| KafkaReceiveLoop.CommitTurn | crates/rustee-events-kafka/src/consumer.rs:226-229 | the commit succeeds exactly when it was stored and acknowledged, then covers the delivered record and nothing else |
| KafkaReceiveLoop.OneTurn | crates/rustee-events-kafka/src/consumer.rs:198-230 | one turn of the loop succeeds exactly when the record could be read, delivered or routed, and committed; on any error but the commit error no offset moves |
| KafkaReceiveLoop.RunWithFailureRouting | crates/rustee-events-kafka/src/consumer.rs:175-232 | while producers and other workers act between turns, the loop does nothing that is not a run of the step system, under any re-entry policy; every lap served one turn in partition order and committed what it delivered; on an error the trace splits into those laps and the steps of the next turn, which cannot be served, and no offset moved in it unless the commit itself failed |
| KafkaReceiveLoop.LoopLosesNothing | crates/rustee-events-kafka/src/consumer.rs:175-232 | where the loop leaves the world no record is lost, whatever happened before and beside it, if the application re-enters only after safe endings |
| EvaluationLedger.AtomicAdvances | crates/rustee-ai-eval/src/in_memory.rs:95-150 | an atomic ledger operation removes no entry, keeps every catalog identity, only moves pending to completed, and touches one key |
| EvaluationLedger.InMemoryRunLedger.New | crates/rustee-ai-eval/src/in_memory.rs:47-56 | a ledger is created, empty, exactly for capacities 1 to 10000 |
| EvaluationLedger.InMemoryRunLedger.Reserve | crates/rustee-ai-eval/src/in_memory.rs:95-129 | the locked section is the atomic reserve and keeps the size within capacity |
| EvaluationLedger.InMemoryRunLedger.RecordCompleted | crates/rustee-ai-eval/src/in_memory.rs:131-150 | the locked section is the atomic record and keeps the size within capacity |
| EvaluationStore.LedgersAdvance | crates/rustee-ai-eval-sqlx/src/store.rs:59-145 | between any two instants of a history the ledger only advances |
| EvaluationStore.StepContinues | crates/rustee-ai-eval-sqlx/src/store.rs:59-145 | every SQL statement, crash or lost reply changes the table exactly as the atomic operation it belongs to, or not at all |
| EvaluationStore.WriteReplyOk | crates/rustee-ai-eval-sqlx/src/store.rs:59-117 | a reply to INSERT or UPDATE is the atomic answer of that very instant |
| EvaluationStore.SelectReplyOk | crates/rustee-ai-eval-sqlx/src/store.rs:81-94 | a reply to the SELECT after a conflicting INSERT is the atomic answer of its own instant |
| EvaluationStore.ClassifyReplyOk | crates/rustee-ai-eval-sqlx/src/store.rs:119-126 | a reply to the SELECT after an unmatched UPDATE is the atomic answer of the UPDATE or of the SELECT, although other statements ran in between |
| EvaluationStore.StepKeepsInv | crates/rustee-ai-eval-sqlx/src/store.rs:59-145 | every step keeps the history, the calls, the replies and the work lists consistent |
| EvaluationStore.RunKeepsInv | crates/rustee-ai-eval-sqlx/src/store.rs:59-145 | the same for whole runs |
| EvaluationStore.Linearizable | crates/rustee-ai-eval-sqlx/src/store.rs:59-145 | in every interleaving the two-statement operations are linearizable to the atomic ledger, each writing at most once |
| EvaluationStore.OneReservation | crates/rustee-ai-eval-sqlx/src/store.rs:59-79 | at most one call ever reserves a (scope, run_key) |
| EvaluationStore.AtMostOnce | crates/rustee-ai-eval/src/submission.rs:125-167 | in every run at most one catalog identity per (scope, run_key) is loaded and executed, at most once each, and the loaded and the executed identity are the one in the table |
| BatchLedger.ReserveMoves | crates/rustee-ai-batch/src/in_memory.rs:89-113 | reserve moves at most its own entry, by at most one stage, answers Reserved exactly when it created the entry and exhaustion exactly when the reference is new and the ledger full |
| BatchLedger.RecordMoves | crates/rustee-ai-batch/src/in_memory.rs:115-139 | record moves at most its own entry, by at most one stage, and succeeds exactly when the entry then holds this receipt |
| BatchLedger.InMemoryBatchLedger.New | crates/rustee-ai-batch/src/in_memory.rs:41-50 | a ledger is created, empty, exactly for capacities 1 to 10000 |
| BatchLedger.InMemoryBatchLedger.Reserve | crates/rustee-ai-batch/src/in_memory.rs:89-113 | the locked section is the atomic reserve and stays within capacity |
| BatchLedger.InMemoryBatchLedger.RecordSubmission | crates/rustee-ai-batch/src/in_memory.rs:115-139 | the locked section is the atomic record and stays within capacity |
| BatchSubmission.StepMovesOneEntry | crates/rustee-ai-batch/src/submission.rs:87-130 | one step of any call or of the reconciler moves at most one entry by at most one stage |
| BatchSubmission.StepKeepsInv | crates/rustee-ai-batch/src/submission.rs:87-130 | every step keeps: only the call that created an entry loads, submits and records for it, and a returned receipt is in the ledger |
| BatchSubmission.RunKeepsInv | crates/rustee-ai-batch/src/submission.rs:87-130 | the same for whole runs, over which no entry, owner or receipt is lost |
| BatchSubmission.AtMostOnce | crates/rustee-ai-batch/src/submission.rs:87-130 | for any number of concurrent and redelivered calls, with failures and crashes anywhere, the catalog is loaded and the provider called at most once per reference |
| BatchSubmission.OneReceipt | crates/rustee-ai-batch/src/submission.rs:97-129 | all successful calls for a reference, at any time, return the one receipt in the ledger, which the provider or the reconciler produced |
| BatchSubmission.EntriesOnlyAdvance | crates/rustee-ai-batch/src/in_memory.rs:99-137 | over any stretch of a run entries only go from absent to pending to submitted, a receipt never changes, and the size never exceeds capacity |
| BatchSubmission.Submit | crates/rustee-ai-batch/src/submission.rs:87-130 | one call loads exactly when it reserved, submits exactly when the load succeeded, succeeds exactly for a prior receipt or its own recorded one, and its result agrees with the ledger although others change it in between |
| RagIngestion.GreedyStaysAhead | crates/rustee-ai-rag/src/ingestion.rs:121-159 | after any number of requests the greedy batches have sent at least as many inputs as any other contiguous partition within the limits |
| RagIngestion.GreedyIsOptimal | crates/rustee-ai-rag/src/ingestion.rs:121-159 | no contiguous partition within both limits needs fewer requests |
| RagIngestion.FitsOneMore | crates/rustee-ai-rag/src/ingestion.rs:129-141 | the guard is the exact complement of fitting one more input; the subtraction cannot underflow because an oversized input was refused before |
| RagIngestion.SplitIsGreedy | crates/rustee-ai-rag/src/ingestion.rs:121-159 | what the loop has sent and collected is a greedy partition of the inputs seen |
| RagIngestion.ResponsePlacement | crates/rustee-ai-rag/src/ingestion.rs:185-219 | each input gets the vector its own request returned for its place in that request |
| RagIngestion.EmbedBatch | crates/rustee-ai-rag/src/ingestion.rs:185-219 | each error is answered exactly for its cause; on success the vectors are appended and all have one dimension |
| RagIngestion.TakeInput | crates/rustee-ai-rag/src/ingestion.rs:126-147 | one turn of the loop extends the greedy split by one input, or stops because an input is too large or the provider cannot serve the batches |
| RagIngestion.EmbedAll | crates/rustee-ai-rag/src/ingestion.rs:121-159 | succeeds exactly when every input fits and the provider serves the greedy batches, which are then the requests; a failure stops after a prefix of them, at the first request that was not served or before an input that is too large; every request ever sent fits the limits |
| RagIngestion.CheckChunks | crates/rustee-ai-rag/src/ingestion.rs:103-119 | accepts exactly non-empty chunk lists of the scheduled document with distinct IDs |
| RagIngestion.Ingest | crates/rustee-ai-rag/src/ingestion.rs:88-175 | exactly one upsert, pairing chunk i with the vector of input i, one dimension, distinct IDs, least number of requests; none on any earlier failure; succeeds exactly when every stage does |
| SseFrames.DelimitersOfPrefix | crates/rustee-ai-mcp/src/sse.rs:264-275 | bytes that arrive later change no delimiter up to the first one already complete |
| SseFrames.CutOfPrefix | crates/rustee-ai-mcp/src/sse.rs:264-275 | the first frame of what has arrived is the first frame of the whole stream |
| SseFrames.DrainInTwo | crates/rustee-ai-mcp/src/sse.rs:264-275 | draining a stream in two parts gives the frames and residue of draining it at once |
| SseFrames.ChunkingIsInvisible | crates/rustee-ai-mcp/src/sse.rs:264-275 | for every stream and every division into chunks, append-then-drain yields the frames and residue of the whole stream |
| SseFrames.ResidueIsDrained | crates/rustee-ai-mcp/src/sse.rs:264-275 | what is left over holds no complete frame |
| SseFrames.DrainConserves | crates/rustee-ai-mcp/src/sse.rs:264-275 | frames and residue together are the stream, byte for byte |
| SseFrames.Position | crates/rustee-ai-mcp/src/sse.rs:264-270 | the first occurrence of the delimiter, if there is one |
| SseFrames.TakeSseFrame | crates/rustee-ai-mcp/src/sse.rs:264-275 | the earliest of the three delimiters ends the frame that is taken from the front; nothing changes when there is none |
| SseParser.ParseSseFrame | crates/rustee-ai-mcp/src/sse.rs:282-315 | the line loop computes the frame meaning: last ID, last numeric retry, joined data, and an error for invalid UTF-8 or any invalid ID |
| SseParser.ReadLine | crates/rustee-ai-mcp/src/sse.rs:290-309 | what one line changes |
| SseReader.ConsumeSseResponse | crates/rustee-ai-mcp/src/http_response.rs:119-178 | the reading loop computes the budgeted outcome and counts exactly the chunks up to the deciding one, keeps the count within the limit, and cannot reach its buffer-overflow branch |
| SseReader.DisconnectedTakesAll | crates/rustee-ai-mcp/src/http_response.rs:136-178 | a body that ends undecided was counted whole |
| SseReader.DrainFrames | crates/rustee-ai-mcp/src/http_response.rs:147-169 | the inner loop judges the complete frames in order until one decides |
| SseReader.FittingStreamIsChunkIndependent | crates/rustee-ai-mcp/src/http_response.rs:136-175 | whenever the stream fits the byte limit, every chunking gives the outcome of the whole stream |
| SseReader.OverflowFails | crates/rustee-ai-mcp/src/http_response.rs:136-146 | a stream over the limit fails on size for every chunking if its first limit bytes decide nothing |
| SseReader.OversizedChunkIndependenceIff | crates/rustee-ai-mcp/src/http_response.rs:136-175 | the outcome of an oversized stream is independent of chunking if and only if its first limit bytes decide nothing |
| SseReader.DecisionIsNotSize | crates/rustee-ai-mcp/src/http_response.rs:147-169 | no frame is judged to be a size failure |
| SseResumption.BackoffIsExponential | crates/rustee-ai-mcp/src/recovery.rs:43-49 | the doubling step gives the capped exponential |
| SseResumption.NextWait | crates/rustee-ai-mcp/src/http_response.rs:94-109 | a resumption waits the server delay or the backoff, within the maximum, and only with an event ID and attempts left |
| SseResumption.OneBody | crates/rustee-ai-mcp/src/http_response.rs:88-116 | one body ends the exchange with its own decision, a refused wait or a failed GET, or hands the rest of the limit and its cursor to the body of the next GET; its bytes are counted exactly |
| SseResumption.SseResponse | crates/rustee-ai-mcp/src/http_response.rs:77-117 | the bodies read, the sleeps and the GETs form one chain: each body but the last ended undecided, one sleep later its GET brought the next; bytes are those bodies whole plus what was counted of the last, within the one limit; sleeps are within the attempts and the maximum backoff; the result is the answer |
| SseResumption.BudgetIsWhatIsLeft | crates/rustee-ai-mcp/src/http_response.rs:125-134 | what a body may use is the limit less all the bodies read before it |
| SseResumption.ConclusionIsAnswer | crates/rustee-ai-mcp/src/http_response.rs:77-117 | what an exchange concludes is determined by the bodies the server sends |
| SseResumption.ResumedAnswerIsChunkIndependent | crates/rustee-ai-mcp/src/http_response.rs:77-117 | over any number of resumptions, as long as the bodies that are read fit the cumulative limit, how each was cut into chunks does not change the answer |
| SseResumption.ResumedOverflowFails | crates/rustee-ai-mcp/src/http_response.rs:125-146 | if the bodies together outgrow the limit and nothing within it decides, the answer is the size failure for every chunking |
| StreamPrinter.BoundedFrameBuffer.Write | crates/rustee-ai-web/src/frame.rs:146-158 | a write is taken whole exactly when it fits, otherwise only the flag changes |
| StreamPrinter.BoundedFrameBuffer.WritePieces | crates/rustee-ai-web/src/frame.rs:69-91 | a sequence of writes succeeds exactly when all of it fits, however it is split |
| StreamPrinter.EncodeFrame | crates/rustee-ai-web/src/frame.rs:69-91 | the frame does not depend on how the serializer splits its writes |
| StreamPrinter.Encode | crates/rustee-ai-web/src/frame.rs:69-91 | a frame is produced exactly when the payload was serialized and the whole frame fits the limit |
| StreamPrinter.FrameItem | crates/rustee-ai-web/src/lib.rs:139-161 | every item, failures included, becomes one frame within the limit, terminal exactly when it ends the response |
| StreamPrinter.StreamResponse | crates/rustee-ai-web/src/lib.rs:131-161 | one frame per polled item, each within the limit, and only the last can be terminal; polling stops there |
| StreamPrinter.ParseUndoesPrint | crates/rustee-ai-mcp/src/sse.rs:282-315 | the client parser returns exactly the payload of a printed frame |
| StreamPrinter.SplitUndoesPrint | crates/rustee-ai-mcp/src/sse.rs:264-275 | the splitter cuts concatenated frames back into exactly those frames |
| StreamPrinter.RoundTrip | crates/rustee-ai-mcp/src/sse.rs:264-315 | printed frames, cut into arbitrary chunks, split and parsed, give back exactly the payloads, with nothing left over |
| StreamPrinter.ErrorPayloadsAreJson | crates/rustee-ai-web/src/frame.rs:52-67 | the terminal error payloads are themselves non-empty, newline-free texts |
| StreamPrinter.ClientSeesTheStream | crates/rustee-ai-web/src/lib.rs:131-161 | a client reads the payload of every polled item in order, the terminal error included |
| McpEventStream.NewRecovery | crates/rustee-ai-mcp/src/recovery.rs:16-41 | a policy is accepted exactly within the attempt and backoff bounds |
| McpEventStream.DelayFor | crates/rustee-ai-mcp/src/recovery.rs:43-50 | the delay doubles from the initial backoff and is capped at the maximum |
| McpEventStream.TakeKeepsInStep | crates/rustee-ai-mcp/src/sse.rs:118-143 | taking a frame and returning its notification keeps the connection history in step with the buffer |
| McpEventStream.ArriveKeepsInStep | crates/rustee-ai-mcp/src/sse.rs:148-163 | appending a chunk keeps the connection history in step with the buffer |
| McpEventStream.EventStream.New | crates/rustee-ai-mcp/src/sse.rs:85-107 | a stream is opened exactly when the declared length fits the limit, with none of its byte, attempt and sleep budgets used |
| McpEventStream.EventStream.NextDelay | crates/rustee-ai-mcp/src/sse.rs:184-202 | a resumption waits the server delay or the backoff, never more than the maximum, and only with an event ID and attempts left |
| McpEventStream.EventStream.ResumeAfterDisconnect | crates/rustee-ai-mcp/src/sse.rs:184-232 | a failed resumption closes the stream, a successful one uses one attempt; sleeps stay within attempts times maximum backoff |
| McpEventStream.EventStream.HandleFrame | crates/rustee-ai-mcp/src/sse.rs:123-143 | one frame gives at most one notification, the one its payload decodes to, and any error closes the stream |
| McpEventStream.EventStream.ReadMore | crates/rustee-ai-mcp/src/sse.rs:145-167 | one read adds bytes within the cumulative limit, resumes, or closes the stream |
| McpEventStream.EventStream.NextNotification | crates/rustee-ai-mcp/src/sse.rs:118-168 | terminates by resumptions left, bytes left, buffer length; returns the notifications of each connection in order without loss; any error is final and has its cause in a bad frame, an oversized chunk or a failed resumption |
| McpSession.StepKeepsInv | crates/rustee-ai-mcp/src/client.rs:125-174 | every step keeps: the lock is held through a handshake, the slot is empty from its empty check to its end, and each call is backed by what it exchanged |
| McpSession.RunKeepsInv | crates/rustee-ai-mcp/src/client.rs:125-174 | the same for whole runs of any number of calls |
| McpSession.SlotDiscipline | crates/rustee-ai-mcp/src/client.rs:125-269 | in every reachable state a step that changes the slot fills it from empty as lock holder after a full handshake for that session, or empties it after being told to forget exactly that session |
| McpSession.HandshakesExcludeEachOther | crates/rustee-ai-mcp/src/client.rs:88-174 | at most one call is in a handshake, and none while a session is stored |
| McpSession.NoReplay | crates/rustee-ai-mcp/src/http_transport.rs:38-134 | each call_tool sends its tools/call POST at most once despite expiry, recovery and resumption; nothing else sends one; handshakes per call are bounded |
| McpSession.McpHttpClient.ClearSessionIfCurrent | crates/rustee-ai-mcp/src/client.rs:264-269 | the slot is cleared exactly if it holds the observed session |
| McpSession.McpHttpClient.InitializeUnlocked | crates/rustee-ai-mcp/src/client.rs:125-174 | idempotent on a stored session, otherwise stores exactly the session of a completed handshake |
| McpSession.McpHttpClient.RecoverExpiredSession | crates/rustee-ai-mcp/src/http_transport.rs:119-133 | stores the session of the first handshake to complete within the attempt limit and keeps a session another call stored |
| JwkSelection.CompatibleKeys | crates/rustee-auth-oidc/src/jwks.rs:277-300 | the loop maps a key ID exactly when one JWK of the whole set carries it and that one is compatible and decodable |
| JwkSelection.KeysOfSelects | crates/rustee-auth-oidc/src/jwks.rs:277-300 | the closed form of the key map has the same meaning |
| JwkSelection.SelectsIsUnique | crates/rustee-auth-oidc/src/jwks.rs:277-300 | that meaning determines the key map |
| JwkSelection.SelectionIgnoresOrder | crates/rustee-auth-oidc/src/jwks.rs:277-300 | the key a key ID stands for does not depend on the order of the set |
| JwkSelection.PermutedSetsGiveEqualMaps | crates/rustee-auth-oidc/src/jwks.rs:277-300 | permuting the set leaves the key map unchanged |
| JwksCache.StepKeepsInv | crates/rustee-auth-oidc/src/jwks.rs:75-161 | every step keeps the gate exclusive, the fetches spaced, and the cache equal to the latest successful fetch |
| JwksCache.RunKeepsInv | crates/rustee-auth-oidc/src/jwks.rs:75-161 | the same for whole runs of any number of calls |
| JwksCache.OneFetchInFlight | crates/rustee-auth-oidc/src/jwks.rs:70-95 | at most one fetch is in flight |
| JwksCache.ServedKeysAreCurrent | crates/rustee-auth-oidc/src/jwks.rs:75-135 | every key returned belongs to the latest successful fetch of its moment, which was younger than the TTL or made by this call |
| JwksCache.FreshKeyIsServed | crates/rustee-auth-oidc/src/jwks.rs:109-119 | a lookup whose key is in the latest successful fetch, while that is fresh, gets that key at once, whatever fetches failed since |
| JwksCache.FailuresChangeNoKey | crates/rustee-auth-oidc/src/jwks.rs:137-161 | over any stretch of any run in which no fetch succeeds, however many fail, the key map and its age stay the same |
| JwksCache.ExpiredKeysStayUnserved | crates/rustee-auth-oidc/src/jwks.rs:75-161 | once the latest successful fetch has expired, failures never bring its keys back: until a fetch succeeds only the call that made it can still be given a key |
| JwksCache.StartsAreSpaced | crates/rustee-auth-oidc/src/jwks.rs:247-255 | the fetches of one lookup reason start at least the interval apart |
| JwksCache.LookupFetchesAreRateBounded | crates/rustee-auth-oidc/src/jwks.rs:75-145 | in any window of length T lookups start at most 2 * (T / interval + 1) fetches |
| JwksCache.IntervalSeparatesFetchesIff | crates/rustee-auth-oidc/src/resource_server_config.rs:106-112 | over all nine pairs of reasons: two fetches are always at least the interval apart if and only if the interval is zero, the later one serves an expired key, or both are for unknown keys; every other pair can start at the same instant |
| ResponseCache.GetRefines | crates/rustee-ai-cache/src/in_memory.rs:94-113 | get returns v exactly when the last write of the key is a put of v still within its TTL |
| ResponseCache.PutRefines | crates/rustee-ai-cache/src/in_memory.rs:115-146 | put gives the answer of the write log, exhaustion included |
| ResponseCache.RetainKeepsLiveKeys | crates/rustee-ai-cache/src/in_memory.rs:134-137 | dropping expired entries leaves exactly the live keys of the log |
| ResponseCache.StepRefines | crates/rustee-ai-cache/src/in_memory.rs:94-157 | every operation answers as the log of successful writes does and keeps the map in step with it |
| ResponseCache.RunRefines | crates/rustee-ai-cache/src/in_memory.rs:94-157 | the same for whole runs from any related state |
| ResponseCache.CacheMeansItsLog | crates/rustee-ai-cache/src/in_memory.rs:94-157 | for every sequence of operations under a monotone clock the bounded map gives exactly the answers of the unbounded write log |
| ResponseCache.InMemoryResponseCache.New | crates/rustee-ai-cache/src/in_memory.rs:43-52 | a cache is created, empty, exactly for capacities 1 to 10000 |
| ResponseCache.InMemoryResponseCache.Get | crates/rustee-ai-cache/src/in_memory.rs:94-113 | returns the live entry of the log; the log does not change |
| ResponseCache.InMemoryResponseCache.Put | crates/rustee-ai-cache/src/in_memory.rs:115-146 | exhaustion exactly when the key is not live and exactly capacity keys are; a success appends one put |
| ResponseCache.InMemoryResponseCache.Invalidate | crates/rustee-ai-cache/src/in_memory.rs:148-157 | appends one invalidation |
| CachedCompletion.Complete | crates/rustee-ai-cache/src/completion.rs:118-174 | a hit happens exactly for an eligible request with a live entry, returns a tool-free response stored earlier and makes no provider call; every other path makes exactly one call or none under fail-closed; exactly tool-free answers that missed are stored; each status has its exact cause |
| CachedCompletion.Execute | crates/rustee-ai-cache/src/completion.rs:191-202 | one executor call, whose answer is passed on |
| ConfigMerge.DecidesMeans | crates/rustee-config/src/builder.rs:116-125 | a source decides a path exactly when it defines it or holds a non-object at a prefix |
| ConfigMerge.MergeView | crates/rustee-config/src/builder.rs:116-125 | at every path the merged value is the source view where the source decides, the target view elsewhere |
| ConfigMerge.ViewsDetermine | crates/rustee-config/src/builder.rs:116-125 | a value is determined by what is found at its paths |
| ConfigMerge.RemergeIsNoOp | crates/rustee-config/src/builder.rs:116-125 | merging a source again changes nothing |
| ConfigMerge.MergeValues | crates/rustee-config/src/builder.rs:116-125 | the key loop computes the merge, whatever order the keys come in |
| ConfigMerge.AddAllHolds | crates/rustee-config/src/builder.rs:44-54 | the builder refuses exactly repeated sources and non-objects and holds exactly what was added |
| ConfigMerge.OrderIsIrrelevant | crates/rustee-config/src/builder.rs:44-54 | permuting the source calls leaves the builder unchanged |
| ConfigMerge.HighestDecides | crates/rustee-config/src/builder.rs:82-96 | at every path the merge of all layers is decided by the highest layer that decides it |
| ConfigMerge.Build | crates/rustee-config/src/builder.rs:82-96 | the loop over the precedence order gives that value at every path |

## Left out

- AtMostOnce: says nothing about progress; a reservation whose owner crashed stays pending until someone reconciles it, as in the source.
- NextNotification: a future dropped in the middle of a read or a sleep is not modelled; the methods return before the next one is called.
- SlotDiscipline: sessions are compared by value as in the client, so a new session equal in every field to an old one counts as the same.
- ServedKeysAreCurrent: keys are opaque numbers, because decoding a JWK is cryptography outside the model.
- ParseSseFrame: works on the bytes of the text; the model rejects invalid UTF-8 by section 4 of RFC 3629 where the source calls the standard library.
- MergeValues: the JSON tree is rebuilt as a value instead of being rewritten in place, so aliasing is not captured.
- Complete: the executor and the other callers of the cache act while this call awaits, and the cache backend may fail either of its operations; a poisoned mutex appears only as that failure.
- The Kafka consumer without failure routing (`run_until`), two run futures of one consumer at the same time, observers and the `auto.offset.reset` policy: a consumer runs one loop at a time and a group starts at offset 0.
- The outbox and relay of the delayed-retry router: a router's success means that its record is in the retry or dead-letter topic, while its errors are arbitrary.
- The request-ID counter of the MCP client beyond its reset in recovery, tool pagination limits, header construction and content types.
- JSON-RPC decoding and the JSON syntax of payloads: a payload is a text that is judged by a parameter.
- The batch artifact ledger and the PostgreSQL batch ledger repeat the two ledgers proved here.
- Environment variables as a configuration source, and deserialization of the merged value into an application type.
- Validation of configuration values outside the components above, redaction in debug output, and error conversion.
