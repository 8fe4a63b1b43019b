# Aether: verified models of the stateful core

These Dafny modules model the parts of Aether (a multi-tenant document-chat service) that keep state through loops,
several Redis or SQL commands, locks, or arithmetic, and prove what those parts are for. `dafny verify dfyconfig.toml`
checks everything.

The same form is used throughout. What the source updates in place is a class whose methods are proved against
specification functions, and its loops are loops with invariants. What several callers do concurrently is a state
machine of single commands or statements whose runs are arbitrary event sequences, so "in every run" means every
interleaving. Machine and class are tied together where both exist (`SoloClaim`, `SoloEnqueue`, `SoloAck`,
`SoloReject`, `SoloPersist`, `SoloRecord`, `CommitRecords`, `SoloRefresh`, `AttachRefines`).

- **Ingestion queue** (`RedisCommands`, `IngestionQueue`, `QueueMachine`, `QueueSafety`, `QueueResults`): a Redis state
  with one function per command; the queue object; the machine in which any number of callers run one command at a
  time; the single-consumer invariant; its consequences.
- **Streaming** (`SseSplitter`, `SseFrames`, `SseRoundTrip`, `StreamBuffer`, `ChatStream`, `StreamPipeline`,
  `ProviderStreams`): from the replay buffer through the polling follower, the frame printer, arbitrary chunking, the
  incremental parser and the deduper to the text on screen; and the two provider parsers built on the same loop.
- **Transactions** (`MessageSeq`, `MessagePaging`, `UsageLedger`, `AdmissionControl`): statements of concurrent
  transactions with row locks, waits, commits and aborts.
- **Sessions** (`RefreshTokens`, `TokenFamilies`, `TokenRevocation`, `AuthUseCases`, `RefreshStatements`, `BrowserTabs`):
  token families on the server, the use cases, refreshes statement by statement, and the browser's tabs driving them.
- **Rate limiting** (`TokenBucket`, `FailOpenLimiter`): the bucket arithmetic over real time, the two limiters and their
  fail-open combination.
- **Ingestion storage** (`IngestionRepository`, `Redelivery`): batched idempotent writes, and any history of repeated
  and interrupted deliveries.
- **Evaluation** (`Ranking`, `RetrievalMetrics`, `ThresholdSweep`): rearrangement, NDCG, recall, MRR, the threshold curve.

## Where a promise holds only under a condition

- `evals/harness/retrieval_metrics.py` documents `ndcg_at_10` as `None` for a query whose relevant chunks never appeared
  in the candidate pool; the code gives `None` exactly when no anchor of the query resolved to a chunk, and 0 when
  resolved chunks were not returned (`NdcgIsDefined`, `UnreturnedScoresZero`). With a repeated chunk in the ranked list
  NDCG can exceed 1 (`RepeatedChunkBreaksNdcg`); the exact condition for every discount is `AtMostOneIffDominated`.
- Each adapter is to yield text, then exactly one ProviderUsage last. The OpenAI-compatible one yields exactly one usage
  if and only if exactly one payload before the stream's end carries usage (`UsagePerPayload`), and that one last if and
  only if it carries no text and no text follows (`OneUsageLastIff`); `NoUsageSent`, `UsageSentTwice` and
  `TextAfterUsage` are streams on which it fails. The Anthropic one does so if and only if a stop is reached with both
  counts reported before it (`AnthropicUsageIff`).
- A printed frame reads back if and only if its generation id, event name and data have no newline
  (`RoundTripExactlyWhenPrintable`).
- A dead-letter entry keeps the whole payload exactly when each bookkeeping field that the payload already has holds the
  value written over it (`DeadLetterKeepsPayload`, `ClashingFieldIsLost`).
- A follower resumed at or beyond done's seq never ends (`FollowFinishesIff`); the route passes Last-Event-ID through.
- Token families survive concurrent refreshes, logins, logouts and revocations if none of them starts on a family while a
  refresh is open on it (`FamiliesUnderPerFamilyLock`). Nothing in the server enforces that. Statement by statement, a
  family is broken exactly by a stale insertion, one decided on a row that is used, about to be marked used, or revoked
  by then (`BreaksIffStale`, `FamiliesIfTimely`, `FamiliesUntilStale`). Two refreshes of one unused token fork the
  family (`InterleavedRefreshForks`); a reuse detected (`ReuseDefeated`), a logout or a revocation of all sessions
  (`LogoutDefeated`) between a refresh's read and its insertion revokes the family, and the token inserted lives on.
- Without the cross-tab lock a second presentation after the grace window revokes the family (`WithoutLockReuse`).
- A retried message whose reply is missing is generated without either budget check; its cost comes on top of the
  overshoot bound, which is then reached exactly (`WorkspaceOvershoot`, `OvershootIsTight`).
- The global spend counter obeys the overshoot bound when requests count as open from their global check; counting only
  admitted requests, it can be exceeded by any amount (`GlobalCountsFromItsOwnCheck`).
- Redis's expiry of a bucket key is unnoticed exactly when the bucket would have been full again
  (`ExpiryUnnoticedIffFull`), which a caller's stalled clock can prevent (`StalledClockShowsExpiry`).
- Repeating a completed delivery leaves the chunk table unchanged if and only if the embedder's model and version are the
  same or the document has no chunks: old vectors are kept but relabelled (`AnotherEmbedderRelabels`); of later
  deliveries the last one that attaches decides (`SameChunksIff`).
- Deleting a document erases its chunks, but a delivery that comes afterwards stores them again (`ErasedContentReturns`).
- The global spend counter is the cost of all events ever recorded: deleting a workspace removes its events and not their
  share of the counter (`UsageLedger.Conservation`).
- A comment in `message_repository.py` treats the insert of the counter row as taking its lock even when the row exists;
  the model follows Postgres, where it waits only for another transaction's uncommitted row.

## Model

| member | source | states |
|---|---|---|
| QueueResults.NeverLosesWakeup | apps/api/src/aether/adapters/redis/ingestion_queue.py:48-136 | with one consumer and any enqueuers interleaved per command, a tenant with an undelivered or unacknowledged message is in the rotation, or in the consumer's hands inside claim_next, or owed a push; no command meets a missing group |
| QueueResults.StatsAreExact | apps/api/src/aether/adapters/redis/ingestion_queue.py:114-136 | with no call in progress total_queued is the number of unresolved messages over all tenants |
| QueueResults.QuiescentIsAtRest | apps/api/src/aether/adapters/redis/ingestion_queue.py:48-136 | every reachable quiet state meets the premise of the drain theorem |
| QueueResults.Conservation | apps/api/src/aether/adapters/redis/ingestion_queue.py:48-99 | every enqueued message is in exactly one of undelivered, pending, acknowledged, dead-lettered, and is resolved at most once |
| QueueResults.FifoPerTenant | apps/api/src/aether/adapters/redis/ingestion_queue.py:54-99 | a tenant's messages are resolved in enqueue order and at most the next one is pending |
| QueueResults.DeliveriesBounded | apps/api/src/aether/adapters/redis/ingestion_queue.py:83-99 | no message is delivered more than max_deliveries times (at least once), dead-lettering happens only then, and the payload delivered is the one enqueued |
| QueueResults.DeadLetterStreamIsExact | apps/api/src/aether/adapters/redis/ingestion_queue.py:83-95 | the dead-letter stream is the dead-lettered messages in order of resolution, nothing else |
| QueueResults.DeadLetterKeepsPayload | apps/api/src/aether/adapters/redis/ingestion_queue.py:83-95 | an entry keeps the whole payload if and only if each of the three bookkeeping fields it already has holds the value written over it; all other fields are always kept |
| QueueResults.ClashingFieldIsLost | apps/api/src/aether/adapters/redis/ingestion_queue.py:83-95 | a payload that names its own tenant_id loses it |
| QueueResults.DeadLettersKeepEnqueued | apps/api/src/aether/adapters/redis/ingestion_queue.py:83-95 | in every reachable state each dead message has its entry, with all enqueued fields but the reserved names |
| QueueResults.DeadLettersWereEnqueued | apps/api/src/aether/adapters/redis/ingestion_queue.py:83-95 | every entry of the dead-letter stream is that of an enqueued message |
| QueueResults.SoloEnqueue | apps/api/src/aether/adapters/redis/ingestion_queue.py:48-52 | the machine's commands, uninterrupted, are the object's enqueue |
| QueueResults.SoloClaim | apps/api/src/aether/adapters/redis/ingestion_queue.py:54-76 | the machine's commands, uninterrupted, are the object's claim_next |
| QueueResults.SoloAck | apps/api/src/aether/adapters/redis/ingestion_queue.py:78-81 | a success that nobody interrupts is the object's ack |
| QueueResults.SoloReject | apps/api/src/aether/adapters/redis/ingestion_queue.py:83-99 | a failure that nobody interrupts is the object's fail, dead-letter entry and acknowledgement included |
| QueueMachine.RotationAccounting | apps/api/src/aether/adapters/redis/ingestion_queue.py:56-112 | for any callers in any roles, membership equals list occurrences plus callers between the two commands of a pair, so the list has no duplicates |
| QueueMachine.RotationIsFifo | apps/api/src/aether/adapters/redis/ingestion_queue.py:54-112 | pops followed by the list are the old list followed by the pushes, under every interleaving |
| QueueMachine.Fairness | apps/api/src/aether/adapters/redis/ingestion_queue.py:54-112 | the tenant at position i is the (i+1)-th popped, and nobody is popped twice before it |
| QueueSafety.InvStep | apps/api/src/aether/adapters/redis/ingestion_queue.py:48-176 | every command of every caller keeps the single-consumer invariant |
| QueueSafety.InvRun | apps/api/src/aether/adapters/redis/ingestion_queue.py:48-176 | so does every run |
| IngestionQueue.ClaimNextIsRoundRobin | apps/api/src/aether/adapters/redis/ingestion_queue.py:54-76 | a claim serves the first tenant in rotation that has work, drops idle ones before it, puts it at the back, touches no other stream |
| IngestionQueue.ClaimForServes | apps/api/src/aether/adapters/redis/ingestion_queue.py:138-176 | a claim for a tenant retries its pending message first, else delivers the next fresh one, else finds that there is none |
| IngestionQueue.EnqueueAppends | apps/api/src/aether/adapters/redis/ingestion_queue.py:48-52 | enqueue appends one undelivered entry and has the tenant in the rotation once |
| IngestionQueue.ConsumeOnceProgress | apps/api/src/aether/adapters/redis/ingestion_queue.py:54-99 | a consumer turn finds nothing anywhere or uses up one of finitely many deliveries |
| IngestionQueue.QueueDrains | apps/api/src/aether/adapters/redis/ingestion_queue.py:54-99 | without new enqueues the queue empties, whatever the handler does |
| IngestionQueue.ScheduleTakesOneTurn | apps/api/src/aether/adapters/redis/ingestion_queue.py:108-112 | scheduling a tenant gives it exactly one turn, keeps every other turn, and repeating it changes nothing |
| IngestionQueue.RedisIngestionQueue.EnqueueMessage | apps/api/src/aether/adapters/redis/ingestion_queue.py:48-52 | the three commands in order; the message is the last of its tenant, which has one turn |
| IngestionQueue.RedisIngestionQueue.Claim | apps/api/src/aether/adapters/redis/ingestion_queue.py:54-76 | the claim loop refines the claim function |
| IngestionQueue.AckedNeverReturns | apps/api/src/aether/adapters/redis/ingestion_queue.py:78-81 | once acknowledged a delivered message is never returned by a claim again, whatever operations follow |
| IngestionQueue.FailDeadLetters | apps/api/src/aether/adapters/redis/ingestion_queue.py:83-99 | on the fields: at the limit exactly one entry joins the end of the dead-letter stream, with every field of the payload but the reserved ones and the tenant, id and count, and the message leaves the pending list; below it nothing changes |
| IngestionQueue.TurnSettles | apps/api/src/aether/app/ingestion/consume_queue.py:29-51 | a success resolves the claimed message, the last allowed failure dead-letters it, an earlier one leaves it pending; nothing else changes |
| IngestionQueue.RedisIngestionQueue.Reject | apps/api/src/aether/adapters/redis/ingestion_queue.py:83-99 | dead-letters if and only if the delivery count has reached the limit; then the entry is appended and the message resolved, else nothing changes |
| IngestionQueue.RedisIngestionQueue.GetStats | apps/api/src/aether/adapters/redis/ingestion_queue.py:114-136 | pending plus lag summed over members, member count, dead-letter depth |
| IngestionQueue.RedisIngestionQueue.RunConsumer | apps/api/src/aether/app/ingestion/consume_queue.py:29-51 | the consumer loop empties a queue at rest in as many turns as it has deliveries left |
| SseSplitter.SplitIsAPartition | apps/web/src/lib/sse.ts:58-68 | blocks and rest join back to the text, no block and no rest can be cut further |
| SseSplitter.SplitInvertsJoin | apps/web/src/lib/sse.ts:58-68 | it is the only such cutting |
| SseSplitter.SplitAppend | apps/web/src/lib/sse.ts:76-104 | going on from the leftover splits the whole |
| SseSplitter.SplitSseBlocks | apps/web/src/lib/sse.ts:58-68 | the loop computes the split |
| SseSplitter.SplitChunks | apps/web/src/lib/sse.ts:76-104 | whatever chunks arrive, the blocks are those of the whole text |
| SseFrames.ParseSseBlock | apps/web/src/lib/sse.ts:21-50 | the line loop computes the parsed block |
| SseFrames.ParseMeaning | apps/web/src/lib/sse.ts:21-50 | nothing for a comment, a blank block or one with neither id nor data; else the last id, the last event name or "message", and all data lines joined by line breaks |
| SseFrames.StreamSse | apps/web/src/lib/sse.ts:76-104 | the yielded frames do not depend on the chunking |
| SseFrames.SeqRecovered | apps/web/src/lib/sse.ts:115-122 | the seq after the last colon comes back for every generation id |
| SseFrames.DecimalRoundTrip | apps/web/src/lib/sse.ts:115-122 | a printed number reads back as itself |
| SseFrames.SeqDeduper.Admit | apps/web/src/lib/sse.ts:112-126 | admits a frame without an id, or one whose number is beyond the last, which it then remembers |
| SseRoundTrip.RoundTrip | apps/api/src/aether/http/sse.py:34-39 | any concatenation of frames and heartbeats parses back to exactly the frames |
| SseRoundTrip.BrokenConnection | apps/web/src/lib/sse.ts:76-104 | a connection broken anywhere gives the frames of an initial segment |
| SseRoundTrip.RoundTripExactlyWhenPrintable | apps/api/src/aether/http/sse.py:34-35 | one frame reads back if and only if its fields have no newline |
| StreamBuffer.ReadAfterMeaning | apps/api/src/aether/adapters/redis/stream_buffer.py:39-48 | read_after is exactly the events beyond the seq, in order |
| StreamBuffer.RedisStreamBuffer.Append | apps/api/src/aether/adapters/redis/stream_buffer.py:33-37 | the event is added once, a repeat changes nothing, and every reader finds it in its place or, being past it, sees no change |
| StreamBuffer.AppendThenRead | apps/api/src/aether/adapters/redis/stream_buffer.py:33-48 | reading commutes with appending |
| StreamBuffer.RedisStreamBuffer.Read | apps/api/src/aether/adapters/redis/stream_buffer.py:39-48 | the stored events beyond the seq, no others |
| StreamBuffer.AppendsBuildPrefix | apps/api/src/aether/adapters/redis/stream_buffer.py:33-37 | with any repeated appends the buffer is an initial segment of the run |
| StreamBuffer.PollsSeePrefixes | apps/api/src/aether/adapters/redis/stream_buffer.py:33-48 | so every poll between at-least-once appends sees an initial segment |
| StreamBuffer.SendEvents | apps/api/src/aether/http/sse.py:94-103 | one read is sent up to and including done, the cursor follows |
| StreamBuffer.FollowBuffer | apps/api/src/aether/http/sse.py:73-103 | the polling loop computes the followed stream, heartbeats included |
| StreamBuffer.FollowIsContiguous | apps/api/src/aether/http/sse.py:73-103 | under any polling schedule a contiguous run from the first event beyond the seq, finished exactly with done |
| StreamBuffer.FollowFinishesIff | apps/api/src/aether/http/sse.py:84-103 | a follower ends if and only if it resumes below done's seq and some poll sees done |
| StreamBuffer.HeartbeatsInSilence | apps/api/src/aether/http/sse.py:84-93 | after anything sent, silent polls bring a heartbeat per full interval (300 polls) of silence and nothing else |
| ChatStream.RafBatcher.AppendDelta | apps/web/src/state/chatStreamStore.ts:106-128 | collects the delta, leaves the store alone, and has a write due |
| ChatStream.RafBatcher.RunAnimationFrame | apps/web/src/state/chatStreamStore.ts:106-128 | a write that is due shows all collected text and is due no more; otherwise nothing changes |
| ChatStream.RafBatcher.FlushNow | apps/web/src/state/chatStreamStore.ts:106-128 | shows all collected text at once |
| ChatStream.ShowsPrefix | apps/web/src/state/chatStreamStore.ts:106-128 | the shown text is always an initial part of the token text, and a write is due when it is not all |
| ChatStream.FrameCatchesUp | apps/web/src/state/chatStreamStore.ts:106-128 | whatever was handled since meta, one animation frame leaves the whole token text shown and no write due |
| ChatStream.DoneShowsEverything | apps/web/src/hooks/useSendMessage.ts:70-130 | at done the whole token text is shown, whatever frames fired in between |
| StreamPipeline.ReadSession | apps/web/src/hooks/useSendMessage.ts:70-79 | reading loop and deduper admit what the specification admits |
| StreamPipeline.ExactlyOnce | apps/api/src/aether/http/sse.py:73-103 | over any connections, resumes, polls, chunkings and breaks, events are admitted once each, in order, all of them after one complete connection |
| StreamPipeline.ScreenShowsPrefix | apps/web/src/state/chatStreamStore.ts:106-128 | at every moment, complete or not, the screen shows an initial part of the reply; the next animation frame shows everything that was admitted |
| StreamPipeline.EndToEnd | apps/web/src/state/chatStreamStore.ts:106-128 | the text shown at done is the concatenation of all deltas |
| StreamPipeline.ProducerToScreen | apps/api/src/aether/adapters/redis/stream_buffer.py:33-48 | the same from the producer's at-least-once appends on, with polls at any times between them |
| ProviderStreams.ParseOpenAiCompatibleSse | apps/api/src/aether/adapters/openai_compatible/completion.py:70-94 | the adapter yields what the whole text says, whatever the chunks |
| ProviderStreams.UsagePerPayload | apps/api/src/aether/adapters/openai_compatible/completion.py:70-94 | over the whole stream, as many usages as payloads with usage before its end: exactly one if and only if exactly one |
| ProviderStreams.YieldsPayloads | apps/api/src/aether/adapters/openai_compatible/completion.py:70-94 | the adapter yields exactly the chunks of the payloads before the end marker, across all lines and blocks; of a payload that breaks on its delta, the usage |
| ProviderStreams.YieldsDeltas | apps/api/src/aether/adapters/openai_compatible/completion.py:70-94 | the text yielded is the payloads' deltas in order, in pieces that are never empty |
| ProviderStreams.OneUsageLastIff | apps/api/src/aether/ports/llm.py:54-58 | "text, then exactly one usage last" holds if and only if one payload carries usage, without text, and none with text follows |
| ProviderStreams.NoUsageSent | apps/api/src/aether/adapters/openai_compatible/completion.py:70-94 | a stream without a usage payload yields none |
| ProviderStreams.UsageSentTwice | apps/api/src/aether/adapters/openai_compatible/completion.py:70-94 | a stream that sends usage twice yields two |
| ProviderStreams.TextAfterUsage | apps/api/src/aether/adapters/openai_compatible/completion.py:70-94 | a payload with both yields its text after the usage |
| ProviderStreams.ParseAnthropicSse | apps/api/src/aether/adapters/anthropic/completion.py:88-128 | the adapter yields what the whole text says, whatever the chunks |
| ProviderStreams.AnthropicUsageIff | apps/api/src/aether/adapters/anthropic/completion.py:88-128 | on the event sequence: the texts, then exactly one usage with the counts reported last, if and only if a stop is reached with both counts reported before it; otherwise none |
| ProviderStreams.EventMeaning | apps/api/src/aether/adapters/anthropic/completion.py:104-128 | what an event block of each name tells the parser |
| ProviderStreams.AnthropicReply | apps/api/src/aether/adapters/anthropic/completion.py:88-128 | a whole reply's text, event by event, yields its delta and then the usage with both counts |
| MessageSeq.GaplessAllocation | apps/api/src/aether/adapters/postgres/message_repository.py:47-100 | in every interleaving committed messages of a thread are 1..n in commit order, and no two have the same client message id |
| MessageSeq.CommittedAsAsked | apps/api/src/aether/adapters/postgres/message_repository.py:47-100 | in every run the committed messages carry thread, client message id and content of the calls whose transactions committed, each once, in commit order |
| MessageSeq.SoloPersist | apps/api/src/aether/adapters/postgres/message_repository.py:47-100 | the five statements, uninterrupted among other open transactions, are the object's persist |
| MessageSeq.PersistAfterAbort | apps/api/src/aether/adapters/postgres/message_store.py:37-52 | an aborted transaction leaves neither rows nor locks; its number is used again |
| MessageSeq.InvStep | apps/api/src/aether/adapters/postgres/message_repository.py:47-100 | every statement of every transaction keeps the allocator's invariant |
| MessageSeq.CounterRowExists | apps/api/src/aether/adapters/postgres/message_repository.py:47-75 | the row read FOR UPDATE is always there |
| MessageSeq.MessageRepository.Persist | apps/api/src/aether/adapters/postgres/message_store.py:21-52 | one transaction: the next number with the given client id and content, or nothing if and only if the thread has a message with that client id |
| MessagePaging.PageMeaning | apps/api/src/aether/adapters/postgres/message_repository.py:136-160 | a page is the newest messages below the cursor, newest first |
| MessagePaging.RecentMeaning | apps/api/src/aether/adapters/postgres/message_store.py:68-74 | recent is the last messages in conversation order |
| MessagePaging.PagingIsExact | apps/api/src/aether/adapters/postgres/message_repository.py:136-160 | paging returns each message present at the first page once and none that arrived later |
| MessagePaging.PagingOverRuns | apps/api/src/aether/adapters/postgres/message_repository.py:136-160 | the same with the pages read at any points of any run of the allocator's transactions |
| MessagePaging.RunsGrow | apps/api/src/aether/adapters/postgres/message_repository.py:31-100 | snapshots along a run grow at the end only |
| UsageLedger.Conservation | apps/api/src/aether/adapters/postgres/usage_ledger.py:99-151 | in every interleaving with aborts and workspace deletions each budget is the sum of its recorded costs and the global counter the sum of all, those of deleted workspaces included |
| UsageLedger.NothingForgotten | apps/api/src/aether/adapters/postgres/workspace_deletion_repository.py:98-103 | recorded and erased events together are, each once, the events of the committed transactions |
| UsageLedger.PostgresUsageLedger.DeleteWorkspace | apps/api/src/aether/adapters/postgres/workspace_deletion_repository.py:98-103 | the workspace, its budget and its events go, the counter stays, books stay balanced |
| UsageLedger.LimitsSurvive | apps/api/src/aether/adapters/postgres/usage_ledger.py:112-143 | a commit never undoes a limit change |
| UsageLedger.LimitHolds | apps/api/src/aether/adapters/postgres/budget_repository.py:53-70 | a limit that is set is in force through any run until it is set again or the workspace deleted; the settled amount stays |
| UsageLedger.CommitRecords | apps/api/src/aether/adapters/postgres/usage_ledger.py:112-151 | a commit amid other transactions is the one-step record |
| UsageLedger.SoloRecord | apps/api/src/aether/adapters/postgres/usage_ledger.py:112-151 | the five statements alone are the one-step record, constraint failures included |
| UsageLedger.RecordAfterAbort | apps/api/src/aether/adapters/postgres/usage_ledger.py:99-151 | an abort at any statement leaves nothing to a later record |
| UsageLedger.NoDeadlock | apps/api/src/aether/adapters/postgres/usage_ledger.py:133-151 | while a transaction is open some transaction's next statement can run |
| UsageLedger.EverybodyFinishes | apps/api/src/aether/adapters/postgres/usage_ledger.py:112-151 | open transactions can all finish by their own statements, without aborts from outside |
| UsageLedger.RollupMeaning | apps/api/src/aether/adapters/postgres/usage_ledger.py:155-192 | one row per model used in the period, in order, with its number of events and their summed tokens and cost, each summed on its own; the total is the period's cost |
| UsageLedger.RollupMatchesBudget | apps/api/src/aether/adapters/postgres/usage_ledger.py:155-192 | the all-time rollup total equals the budget's settled amount in every committed state |
| UsageLedger.DecisionMeaning | apps/api/src/aether/adapters/postgres/usage_ledger.py:46-81 | fail closed without a budget; the rounded soft threshold is exact; a refusal always carries the warning |
| UsageLedger.PostgresUsageLedger.Record | apps/api/src/aether/adapters/postgres/usage_ledger.py:99-153 | all three writes or none, exactly when a constraint fails; the event is stored as given, books stay balanced |
| UsageLedger.PostgresUsageLedger.Check | apps/api/src/aether/adapters/postgres/usage_ledger.py:46-81 | allowed, warned and reported by what the workspace's recorded events add up to; refused without a budget |
| UsageLedger.PostgresUsageLedger.CheckGlobal | apps/api/src/aether/adapters/postgres/usage_ledger.py:83-92 | allowed if and only if all costs ever recorded and the ceiling fit the global limit |
| UsageLedger.PostgresUsageLedger.Rollup | apps/api/src/aether/adapters/postgres/usage_ledger.py:155-192 | the grouped rows and their total |
| AdmissionControl.WorkspaceOvershoot | apps/api/src/aether/app/chat/send_message.py:140-171 | settled plus ceilings in flight stays within limit + (k-1)*c plus the unchecked retries' ceilings in every state of every run, for any limits up to the given one |
| AdmissionControl.SettledOvershoot | apps/api/src/aether/app/chat/send_message.py:140-171 | so does settled spend, from a quiet start |
| AdmissionControl.GlobalOvershoot | apps/api/src/aether/app/chat/send_message.py:140-171 | the same for the global counter, counting from the global check |
| AdmissionControl.FinishingFrees | apps/api/src/aether/app/chat/send_message.py:140-171 | requests that end unbilled free their ceilings |
| AdmissionControl.OvershootIsTight | apps/api/src/aether/app/chat/send_message.py:140-171 | settled spend reaches the bound exactly, for every limit, k, retry cost, and c up to the limit |
| AdmissionControl.GlobalOvershootIsTight | apps/api/src/aether/app/chat/send_message.py:140-171 | so does the global counter |
| AdmissionControl.GlobalCountsFromItsOwnCheck | apps/api/src/aether/app/chat/send_message.py:163-171 | counting admitted requests only does not bound the global counter |
| TokenFamilies.FamiliesAlways | apps/api/src/aether/app/auth/refresh_session.py:67-110 | in every serial run families have one user, are chained in order of creation, wholly live or wholly revoked |
| TokenFamilies.FamiliesFromScratch | apps/api/src/aether/app/auth/refresh_session.py:67-110 | so in every serial run from an empty table |
| TokenFamilies.OneUnusedTip | apps/api/src/aether/app/auth/refresh_session.py:67-110 | exactly one unused token per family, its newest; successor links are acyclic |
| TokenFamilies.SuccessorsDiffer | apps/api/src/aether/app/auth/refresh_session.py:67-90 | no two tokens share a successor |
| TokenRevocation.RevocationIsFinal | apps/api/src/aether/adapters/postgres/refresh_token_repository.py:56-76 | a revoked family gives no access ever again and gains no token |
| TokenRevocation.ReuseRevokesFamily | apps/api/src/aether/app/auth/refresh_session.py:91-110 | a used token gives access inside the grace window on its device and revokes its family otherwise |
| TokenRevocation.FirstPresentation | apps/api/src/aether/app/auth/refresh_session.py:67-90 | a token made by a login or rotation rotates when first presented, from any device, within its lifetime and unless revoked; else it is refused |
| TokenRevocation.LaterPresentation | apps/api/src/aether/app/auth/refresh_session.py:91-110 | a token made from a device and first used at some time, presented again after any operations: access within the grace window from that device, reuse otherwise, refusal once expired or revoked |
| TokenRevocation.LogoutRevokes | apps/api/src/aether/app/auth/logout_user.py:45-57 | logging out revokes the family, even with a used or expired token |
| TokenRevocation.RevokeUserRevokes | apps/api/src/aether/app/auth/revoke_user_sessions.py:33-36 | revokes every family of the user |
| RefreshStatements.FamiliesUnderPerFamilyLock | apps/api/src/aether/app/auth/refresh_session.py:67-110 | for any number of executions, logins, logouts and revocations in any interleaving: if none begins on a family while another execution is open on it, the family invariant holds whenever no execution is between its two writes |
| RefreshStatements.BreaksIffStale | apps/api/src/aether/app/auth/refresh_session.py:67-110 | in any state a statement breaks the family invariant if and only if it inserts a successor of a token used, about to be marked used, or revoked since it was read |
| RefreshStatements.FamiliesIfTimely | apps/api/src/aether/app/auth/refresh_session.py:67-110 | so every run without such an insertion keeps it, with no lock at all |
| RefreshStatements.FamiliesUntilStale | apps/api/src/aether/app/auth/refresh_session.py:67-110 | and the first such insertion breaks it |
| RefreshStatements.InterleavedRefreshForks | apps/api/src/aether/app/auth/refresh_session.py:76-87 | a run of two interleaved executions leaves two unused tokens, each of which gives access |
| RefreshStatements.LateInsertion | apps/api/src/aether/app/auth/refresh_session.py:76-87 | an execution whose family is revoked after its read inserts a live token into it, which rotates |
| RefreshStatements.ReuseDefeated | apps/api/src/aether/app/auth/refresh_session.py:102-110 | a run in which a detected reuse revokes the family and the family's new token rotates afterwards |
| RefreshStatements.LogoutDefeated | apps/api/src/aether/app/auth/logout_user.py:45-57 | runs in which a logout, or a revocation of all the user's sessions, lands before the insertion and the new token rotates afterwards |
| RefreshStatements.SoloRefresh | apps/api/src/aether/app/auth/refresh_session.py:67-110 | the statements of one execution, uninterrupted, are the one-step refresh |
| RefreshStatements.LogInMeanwhile | apps/api/src/aether/app/auth/login_user.py:73-85 | a login amid open refreshes starts its own family, whose token rotates within its lifetime |
| AuthUseCases.AuthService.LoginUser | apps/api/src/aether/app/auth/login_user.py:64-103 | a new family of one token, which rotates when presented within its lifetime and is refused after it; all other tokens unchanged |
| AuthUseCases.AuthService.RefreshSession | apps/api/src/aether/app/auth/refresh_session.py:67-110 | rotation leaves the successor as the family's unused tip with a lifetime of its own and the old token with its grace window and device; reuse leaves the family revoked, every other outcome changes nothing |
| AuthUseCases.AuthService.LogoutUser | apps/api/src/aether/app/auth/logout_user.py:45-57 | the live tokens of the presented token's family are revoked now, every other token is unchanged |
| AuthUseCases.AuthService.RevokeUserSessions | apps/api/src/aether/app/auth/revoke_user_sessions.py:33-36 | the live tokens of the user are revoked now, every other token is unchanged |
| BrowserTabs.TabsNeverReuse | apps/web/src/lib/authRefresh.ts:65-87 | for any tabs, concurrent calls in them and interleavings no request is answered as reuse or grace, and with the lock free the cookie is the unused tip |
| BrowserTabs.RequestIsNeverReuse | apps/web/src/lib/authRefresh.ts:66-81 | the lock holder's request rotates or is refused as expired or revoked |
| BrowserTabs.GoodStep | apps/web/src/lib/authRefresh.ts:65-87 | every step of browser and world keeps the invariant |
| BrowserTabs.WithoutLockReuse | apps/web/src/lib/authRefresh.ts:83-86 | a run of two tabs without the lock in which the second presents the rotated cookie after the grace window, and the first tab's new token is revoked with the family |
| BrowserTabs.BroadcastSparesRequest | apps/web/src/lib/authRefresh.ts:33-69 | over any run in which the tab does not log out, for two seconds after it saw another's refresh each of its calls that gets the lock makes no request and changes neither server nor cookie |
| BrowserTabs.TabRefreshes | apps/web/src/lib/authRefresh.ts:65-87 | with the lock free and no recent token a call asks the server, and on access the tab has a token, the new cookie is in place and every other tab is told |
| BrowserTabs.LogInStarts | apps/web/src/lib/authRefresh.ts:48-51 | a login leaves a cookie that rotates within its lifetime and spares requests for two seconds |
| BrowserTabs.LogOutEverywhere | apps/web/src/lib/authRefresh.ts:53-56 | a logout revokes the cookie's family and drops cookie and token; every other tab has lost its token once it has seen its broadcasts |
| BrowserTabs.AuthRefresh.OnMessage | apps/web/src/lib/authRefresh.ts:33-42 | a refresh elsewhere spares requests for exactly two seconds, a logout spares none |
| BrowserTabs.AuthRefresh.RunRefresh | apps/web/src/lib/authRefresh.ts:65-81 | a request is made unless a token is under two seconds old; a token that arrives spares exactly the next two seconds, a refusal changes nothing |
| TokenBucket.AdmissionBound | apps/api/src/aether/adapters/redis/rate_limiter.py:24-55 | any window of checks admits at most limit plus what the forward clock steps refill, even on a clock that goes back |
| TokenBucket.RefillsAreForward | apps/api/src/aether/adapters/redis/rate_limiter.py:37-38 | that refill is rate times the sum of forward steps |
| TokenBucket.AdmissionOverTime | apps/api/src/aether/adapters/redis/rate_limiter.py:24-55 | limit + rate * elapsed on a monotone clock, in every sub-window |
| TokenBucket.AdmittedExactlyWhenRoom | apps/api/src/aether/adapters/redis/rate_limiter.py:24-55 | after any run, under any clock, a check is admitted if and only if no window ending with it would then hold more than limit plus refills |
| TokenBucket.BurstIsTheLimit | apps/api/src/aether/adapters/redis/rate_limiter.py:24-55 | from an untouched key n checks at one instant admit the lesser of n and the limit |
| TokenBucket.RemainingMeaning | apps/api/src/aether/adapters/redis/rate_limiter.py:40-55 | remaining is the number of further checks admitted at the same instant |
| TokenBucket.TtlIsTwoWindows | apps/api/src/aether/adapters/redis/rate_limiter.py:47 | the key lives two windows after a check |
| TokenBucket.ExpiryIsInvisible | apps/api/src/aether/adapters/redis/rate_limiter.py:37-54 | on agreeing clocks all answers are those of keys that never expire |
| TokenBucket.SharedClocksAgree | apps/api/src/aether/adapters/redis/rate_limiter.py:64-70 | a shared monotone clock agrees with itself |
| TokenBucket.ExpiryUnnoticedIffFull | apps/api/src/aether/adapters/redis/rate_limiter.py:31-47 | an expiry goes unnoticed exactly when the bucket would be full |
| TokenBucket.StalledClockShowsExpiry | apps/api/src/aether/adapters/redis/rate_limiter.py:47 | with a stalled caller's clock an expiry admits one more request |
| TokenBucket.ScriptResetIsSound | apps/api/src/aether/adapters/redis/rate_limiter.py:49-54 | waiting a whole number of seconds refills the bucket if and only if it is at least reset_seconds |
| TokenBucket.LocalResetIsClose | apps/api/src/aether/adapters/redis/rate_limiter.py:102 | the local hint equals the script's or is one less, exactly when then under a millisecond short |
| FailOpenLimiter.RedisTokenBucketRateLimiter.Check | apps/api/src/aether/adapters/redis/rate_limiter.py:24-75 | the script's answer and the stored bucket and expiry |
| FailOpenLimiter.LocalTokenBucketRateLimiter.Check | apps/api/src/aether/adapters/redis/rate_limiter.py:90-105 | the same admission from the process's own bucket |
| FailOpenLimiter.FailOpenRateLimiter.Check | apps/api/src/aether/adapters/redis/rate_limiter.py:119-124 | Redis's answer, or the local one on an error; each bucket touched exactly when its limiter ran; other keys untouched |
| FailOpenLimiter.FleetBound | apps/api/src/aether/adapters/redis/rate_limiter.py:78-124 | N processes failing over in any pattern admit at most N+1 times one bucket's bound, lost replies included |
| FailOpenLimiter.ExpiringFleetBound | apps/api/src/aether/adapters/redis/rate_limiter.py:46-124 | the same with the key's expiry, in any window, on clocks that agree between executions of the script |
| IngestionRepository.InsertInBatches | apps/api/src/aether/adapters/postgres/ingestion_repository.py:71-96 | for every length the 500-row batches are the whole list, chunk i under id i, each once, or a constraint refuses |
| IngestionRepository.PostgresIngestionRepository.InsertChunksAndAdvance | apps/api/src/aether/adapters/postgres/ingestion_repository.py:61-102 | rows and status together, or nothing |
| IngestionRepository.PostgresIngestionRepository.AttachEmbeddingsAndAdvance | apps/api/src/aether/adapters/postgres/ingestion_repository.py:147-189 | all vectors, the status and the one ready notice, or nothing |
| IngestionRepository.PostgresIngestionRepository.MarkFailed | apps/api/src/aether/adapters/postgres/ingestion_repository.py:34-59 | the document is failed with that stage and reason, no other changes, and the stage's notice is enqueued unless it has one |
| Redelivery.QuietOpsKeepChunks | apps/api/src/aether/adapters/postgres/ingestion_repository.py:23-59 | any number of status changes and failures leave the chunk table as it was |
| Redelivery.InsertMeaning | apps/api/src/aether/adapters/postgres/ingestion_repository.py:71-96 | every chunk of the list is stored under its number, existing rows win, nothing else changes |
| Redelivery.AttachRefines | apps/api/src/aether/app/ingestion/process_document.py:151-189 | listing, resolving and updating in any order embeds exactly the document's chunks |
| Redelivery.ChunkTableAfter | apps/api/src/aether/adapters/postgres/ingestion_repository.py:61-189 | after any sequence of transactions the chunk table is fixed by the first insert, the first attach after it and the last label |
| Redelivery.OutboxAfter | apps/api/src/aether/adapters/postgres/outbox_repository.py:74-99 | over any transactions outbox rows are never changed, and each new one was asked for by one of them |
| Redelivery.OutboxOfDeliveries | apps/api/src/aether/adapters/postgres/outbox_repository.py:74-99 | after any deliveries with one kind of permanent failure: one ready row if some completed, one failed row if some failed, nothing else |
| Redelivery.OutboxPerStage | apps/api/src/aether/adapters/postgres/ingestion_repository.py:34-59 | after any deliveries whatever: a ready row if and only if some completed, and for each stage a failed row if and only if some failed there, with the first one's reason; rows present stay |
| Redelivery.RepeatedFailure | apps/api/src/aether/adapters/postgres/ingestion_repository.py:34-59 | a permanent failure repeated leaves the outbox of one run of it |
| Redelivery.RedeliveryIsHarmless | apps/api/src/aether/app/ingestion/process_document.py:96-173 | any deliveries around the first complete one, interrupted anywhere, leave the chunk table, and unless one failed for good the outbox, of that one alone |
| Redelivery.SameChunksIff | apps/api/src/aether/app/ingestion/process_document.py:182-189 | deliveries around the first complete one leave its chunk table if and only if there are no chunks or the last that attaches uses the same embedder |
| Redelivery.ErasedContentReturns | apps/api/src/aether/adapters/postgres/document_repository.py:97-111 | after a deletion no chunk is left, and a complete delivery then stores every one again, the document staying deleted |
| Redelivery.AnotherEmbedderRelabels | apps/api/src/aether/app/ingestion/process_document.py:182-189 | a repeat under another embedder changes the table exactly when there are chunks and the label differs |
| Redelivery.CompleteIsReady | apps/api/src/aether/adapters/postgres/ingestion_repository.py:147-189 | a complete delivery after anything leaves the document ready and its one notice there for good |
| Redelivery.CompleteEmbeds | apps/api/src/aether/adapters/postgres/ingestion_repository.py:61-189 | it stores every chunk under its number with its workspace, text, vector and label |
| Ranking.TopSumsHighest | evals/harness/retrieval_metrics.py:124-143 | no k elements sum to more than the k largest |
| Ranking.DominatedDcg | evals/harness/retrieval_metrics.py:88-89 | a dominated order has no larger DCG, and an equal one only if it is the same |
| Ranking.BreakingDiscount | evals/harness/retrieval_metrics.py:88-89 | an order that is not dominated is preferred by some positive decreasing discount |
| RetrievalMetrics.RelevantChunkIds | evals/harness/retrieval_metrics.py:76-85 | the nested loops map each relevant chunk to its highest grade |
| RetrievalMetrics.RankingDominated | evals/harness/retrieval_metrics.py:124-143 | the returned order is dominated by the ideal one |
| RetrievalMetrics.NdcgIsNormalised | evals/harness/retrieval_metrics.py:124-143 | with no relevant chunk twice in the first ten: NDCG in [0,1], 1 exactly for the ideal gains, 0 exactly without a hit, None exactly without relevant chunks |
| RetrievalMetrics.DistinctListsAreNormalised | evals/harness/retrieval_metrics.py:88-143 | so for every list of distinct chunks |
| RetrievalMetrics.NdcgIsDefined | evals/harness/retrieval_metrics.py:124-143 | for any list at all: None exactly without relevant chunks, 0 exactly without a hit in the first ten |
| RetrievalMetrics.UnreturnedScoresZero | evals/harness/retrieval_metrics.py:54-58 | a query whose relevant chunks are not returned scores 0, not None |
| RetrievalMetrics.AtMostOneIffDominated | evals/harness/retrieval_metrics.py:124-143 | NDCG is at most 1 under every discount if and only if no prefix of the gains beats the ideal one |
| RetrievalMetrics.RepeatedChunkBreaksNdcg | evals/harness/retrieval_metrics.py:124-143 | a repeated chunk can push NDCG above 1 |
| RetrievalMetrics.ReversedPairNdcg | evals/harness/retrieval_metrics.py:88-143 | a supporting chunk before a primary one scores (d0+2*d1)/(2*d0+d1) |
| RetrievalMetrics.RecallIsAFraction | evals/harness/retrieval_metrics.py:127-131 | recall is in [0,1], grows with k, is 1 exactly when all are found |
| RetrievalMetrics.RecallCounts | evals/harness/retrieval_metrics.py:127-131 | recall times the number of relevant chunks is the number of distinct relevant chunks among the first k |
| RetrievalMetrics.MrrMeaning | evals/harness/retrieval_metrics.py:133 | the reciprocal of the first relevant rank |
| RetrievalMetrics.RanksMeaning | evals/harness/retrieval_metrics.py:124-125 | the relevant ranks are those of the relevant results, in order, each once |
| RetrievalMetrics.NoHitScoresZero | evals/harness/retrieval_metrics.py:133 | and 0 if and only if there is none |
| ThresholdSweep.CountBy | evals/harness/threshold_sweep.py:90-97 | the four counts at a threshold |
| ThresholdSweep.SweepThresholds | evals/harness/threshold_sweep.py:78-103 | one point per candidate, and an IndexError for an empty list |
| ThresholdSweep.CandidatesOk | evals/harness/threshold_sweep.py:83-87 | the candidates are the observed scores, each once, ascending, and a millionth above the highest |
| ThresholdSweep.LosslessCurve | evals/harness/threshold_sweep.py:78-103 | some candidate has the counts of any given threshold |
| ThresholdSweep.CurveIsMonotone | evals/harness/threshold_sweep.py:56-75 | class sizes constant, recall never rises, specificity never falls |
| ThresholdSweep.RatesMeasure | evals/harness/threshold_sweep.py:56-75 | recall and specificity are the shares of the positives and negatives, None without any |
| ThresholdSweep.CurveEnds | evals/harness/threshold_sweep.py:78-103 | the first point refuses nothing, the last everything |

## Left out

- Several queue consumers, for the wake-up, order and conservation claims: XPENDING then XCLAIM is not atomic, so another
  consumer can resolve the head in between. Rotation accounting, FIFO rotation and fairness hold for any number.
- Process crashes between LPOP and SREM or between SADD and RPUSH; stream ids are positions.
- Expiry of the stream buffer during a session; members of equal score in the sorted set keep insertion order.
- UTF-8: network text is a sequence of characters, so a chunk never ends inside one. JSON parsing is a parameter. A seq is
  digits, without rounding beyond 2^53. A reader that aborts stops between chunks.
- Client reconnection is not in the browser code; the pipeline theorems keep one deduper over any number of connections,
  which the server's resume is made for. The store is cleared after the done frame's flush.
- SseFrames.SeqDeduper.Admit: does not model ids whose part after the last colon is numeric but not digits (signs,
  exponents).
- In the runs of `TokenFamilies`, `TokenRevocation` and `BrowserTabs` a refresh is one step; `RefreshStatements` says
  exactly when that is sound. Its logout reads the token and revokes in one step, since the family of a token never
  changes. Lost refresh and login responses, token hashing, access-token denylist, audit rows.
- Transactions that write several threads in opposite orders may deadlock in the database; the model lets them wait.
- The monthly period; the time stamp that a limit update must match; workspace deletion in the admission machine; the steps of a deletion before its last statement.
- How ceilings are computed: that an actual cost never exceeds its ceiling is an assumption of the overshoot bounds.
- The 64-bit range of cost columns, and the order of model names beyond being an order.
- Floating point: scores, grades, tokens and clocks are real numbers; the NDCG discount is any positive decreasing one,
  of which 1/log2 is an instance. Limits and windows of the rate limiter are at least one.
- Deliveries of one document run one after the other, as with the single consumer; chunking is deterministic; the
  embedding cache is any function from chunk to vector.
- Averages over queries, report rendering, precision and F1 beyond their counts.
- SQL text, row-level security, HTTP routes, metrics, tracing, object storage, scanning, email, React components: plumbing.
