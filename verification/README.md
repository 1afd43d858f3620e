# Verified model of the LLM gateway and the content API

Two programs are modelled. The **AI provider gateway** admits requests, retries and falls back between model
aliases, streams answers, caches them in two layers and is configured from a YAML file that a command line
edits. The **API** runs content tasks that survive crashes, limits mails per address and guards the company
context. Each module below follows one part; code that works in place is a class or a loop proved against a
function, concurrent parts are state machines over their atomic steps with theorems about every run.

| module | part |
|---|---|
| `TokenBucket`, `StreamSlots`, `StreamRoutes`, `SlidingWindow` | admission: rate, concurrent streams and who counts as one, mails |
| `CircuitBreaker`, `Singleflight`, `Coalescing` | concurrency protocols around embeddings and answers |
| `Resilience`, `Streaming`, `LateEmitters` | retry, fallback, streaming and replay |
| `ChatReply`, `Text`, `CachePipeline`, `StreamCaching`, `TagCodec`, `KnnReply` | replies, their two caches, search tags and search replies |
| `Sse` | event-stream frames, read by the WHATWG HTML Living Standard, section 9.2.6 |
| `GatewayConfig`, `ProviderRegistry`, `EnvFile`, `EnvRollback`, `CliMutations` | configuration, start-up, command line |
| `ContentRun`, `RunReach`, `RunBounds`, `RunStatus` | content runs with crashes, recovery, review and cancellation: what every step keeps, how often a run is executed, when its status can be trusted |
| `TurnGrouping` | chat turns as Anthropic messages |
| `CompanyContext`, `ContextPatches` | the company-context gate, and patches that overlap |
| `Prelude` | options and results |

`dafny verify dfyconfig.toml` checks everything.

## Assumptions

- Clocks do not step back, except where a lemma says what happens when they do.
- Numbers are integers: the floor in the Lua script is exact, token and millisecond counts do not overflow.
- SHA-256 is injective: a hashed key stands for the text that is hashed. Identity keys stand for their fields.
- Redis commands, database updates and conditional updates are atomic; a Lua script is one command. The branches
  that let requests through when Redis is unreachable are outside the rate and slot bounds: Redis is up whenever a part
  of the gateway that uses it is switched on. Whether the key of the stream counter may expire under a slot is a
  parameter of the results about it.
- URLs are paths with an optional query string. Routes match without regard to case and to one slash at the end.
- The vector store returns entries of the searched partition with their similarity (`IsNeighbours`); similarity
  itself is an arbitrary function. Embedding, provider, verdict and URL parsing answers are arbitrary inputs.
- Characters are UTF-16 units, as in JavaScript; lower-casing is a function that maps only the empty text to it.
- Records are maps without JavaScript's prototype keys. Where the order of entries matters it is an explicit listing.
- Cache expiry, changed prompts and damaged cache values may come between any two requests (`ChatCache.Expire`,
  `Reconfigure`, `Damage`). Between the awaits of a content run a crash, a fault, a resume, a cancellation or a
  recovery may come.
- A step of a content run ("modelled step") is one call of a store, of the log or of the language model, the retries
  and logs of a model call included. Where faults are allowed any of them may throw.
- A content run is one process: recovery at start-up finishes before requests are served, as the worker does it.

## What the code does that its own texts do not say

- The 60 s expiry of the rate bucket breaks the rate bound, exactly when burst > 60·rps (`TokenBucket.RateBoundedIff`).
- Slots of the stream counter are lost: the guard takes one for every path that ends in /stream, while the interceptor that
  gives it back is on the stream handler only and looks at the whole URL. So `GET /api/v1/models/stream` and a stream
  request with a query string each lose a slot, and after as many as the maximum the key can stream no more
  (`StreamRoutes.MatchedIff`, `StreamRoutes.LeakingRequests`, `StreamRoutes.DeniedWithinLimitIff`, `StreamSlots.LeaksStarve`).
- A facade stream loses its slot when the request cannot be translated, for instance when it has system messages only:
  the slot is taken first, and the `try` that gives it back begins after the translation (`StreamRoutes.UnmappedFacade`).
- A stream requested with a slash at the end, or in capitals, takes no slot and is not limited (`StreamRoutes.StreamSlips`).
- With the limiter switched off the facades still count their streams when a cache uses Redis, and plain streams then give
  back slots they never took (`StreamRoutes.LimiterOffGifts`). Without Redis nothing is counted.
- When the key of the counter expires under a stream, the releases that follow let that many streams too many in
  (`StreamSlots.ExpiryOverAdmits`). The exact condition for the limit to hold is `StreamRoutes.ServedWithinLimitIff`.
- One embedding call as old as the cooldown is enough for two half-open trials (`CircuitBreaker.OneTrialIff`). The cooldown
  is 30 s, so this takes an embedding timeout of at least that, which the settings allow; the default is 5 s.
- The exhausted-retries report claims 2·maxAttempts calls whatever was made (`Resilience.ExhaustedReportExactIff`,
  `Resilience.ReportOverstates`).
- An attempt that timed out while reading can still emit into the stream, even after done (`LateEmitters.AlwaysTidyIff`).
- A prompt with a bar in it shares its system signature with another prompt (`CachePipeline.SignatureUniqueIff`).
- The messages "remove anyway" and "move anyway" announce a save that the schema always refuses; removing a model
  that others fall back to is refused without any warning (`GatewayConfig.RemoveAnywayNeverSaves`,
  `GatewayConfig.RemoveStaysBootableIff`, `GatewayConfig.FallbackBlocksRemoval`). A refused change stays in the
  configuration in memory.
- Adding a provider that fails deletes `.env` entries that existed before, and leaves what follows a line break in a
  secret (`CliMutations.ProviderRollbackIff`); it is not undone at all when an alias is already taken
  (`CliMutations.Cli.ApplyAddProvider`).
- A duplicate API key reference goes unnoticed when the earlier row has the empty id (`GatewayConfig.EmptyIdHidesDuplicate`).
- A cancelled run can be written back to another status, exactly when an execution or a resume request that can still
  write is under way (`RunStatus.CancellationLastsIff`); an abort stops an execution only at a call of the model, after
  the phase is saved, and in the catch block. A completed run can turn failed, and resume requests in flight together
  each execute the run (`RunStatus.TableFollowedIff`, `RunBounds.ResumedAtMostIff`).
- Of two patches of the company context that overlap, the first to write can be lost (`ContextPatches.OverlapKeepsBothIff`).
- A coalesced request is answered under the request id of the one it joined (`Coalescing.SharedAnswerFits`).

## Model

| member | source | states |
|---|---|---|
| `TokenBucket.RateLimiter.CheckRateLimit` | apps/ai-provider-gateway/src/rate-limit/smart-rate-limiter.service.ts:63-172 | one script evaluation on the per-key hash: verdict, remaining and reset time, the rewritten hash on admission, the untouched one on denial, other keys untouched |
| `TokenBucket.RateBound` | apps/ai-provider-gateway/src/rate-limit/smart-rate-limiter.service.ts:86-121 | while the hash does not expire, any run of calls and any interval [s,t]: at most burst + floor(rps·(t−s)/1000) admissions |
| `TokenBucket.PotentialBounds` | apps/ai-provider-gateway/src/rate-limit/smart-rate-limiter.service.ts:86-121 | the same from any stored hash: admissions never exceed what the hash still holds for the interval |
| `TokenBucket.AfterInRange` | apps/ai-provider-gateway/src/rate-limit/smart-rate-limiter.service.ts:95-120 | stored tokens stay in 0..burst−1 and the time stamp never passes the clock |
| `TokenBucket.ExpiryInvisible` | apps/ai-provider-gateway/src/rate-limit/smart-rate-limiter.service.ts:95-120 | when burst ≤ 60·rps, the 60 s key expiry changes no verdict of any run |
| `TokenBucket.EarlyRefill` | apps/ai-provider-gateway/src/rate-limit/smart-rate-limiter.service.ts:95-120 | when burst > 60·rps, two full bursts a minute apart are both admitted whole: a concrete run above the bound |
| `TokenBucket.RateBoundedIff` | apps/ai-provider-gateway/src/rate-limit/smart-rate-limiter.service.ts:86-121 | the rate bound holds over all runs and intervals with the expiry the script sets if and only if burst ≤ 60·rps |
| `TokenBucket.PollingIsHarmless` | apps/ai-provider-gateway/src/rate-limit/smart-rate-limiter.service.ts:95-120 | denied calls leave the hash alone: 1000/rps ms after the last admission the next call is admitted however often the client polled |
| `TokenBucket.NoStarvation` | apps/ai-provider-gateway/src/rate-limit/smart-rate-limiter.service.ts:95-120 | the same inside any whole run, between any admission and any later call |
| `StreamSlots.StreamCounter.CheckConcurrentStreams` | apps/ai-provider-gateway/src/rate-limit/smart-rate-limiter.service.ts:174-219 | INCR, compare, compensating DECR: verdict, remaining slots, the counter left behind |
| `StreamSlots.RunConserves` | apps/ai-provider-gateway/src/rate-limit/smart-rate-limiter.service.ts:193-238 | INCR and compensating DECR as separate interleaved steps, over every run: counter = held + rejecting + accumulated charges, and no more than the maximum is held while charges are not negative |
| `StreamSlots.StepConserves` | apps/ai-provider-gateway/src/rate-limit/smart-rate-limiter.service.ts:193-238 | the one-step form: the drift moves by exactly the charge of the step |
| `StreamSlots.UnmatchedBreaks` | apps/ai-provider-gateway/src/rate-limit/smart-rate-limiter.service.ts:193-238 | one request that takes a slot and gives none back, or the reverse, served alone leaves the counter off |
| `StreamSlots.SoundIffMatched` | apps/ai-provider-gateway/src/rate-limit/smart-rate-limiter.service.ts:193-238 | counter = slots held + rejections pending and slots held ≤ maximum over every interleaving of a set of request kinds if and only if each of them gives back exactly what it takes |
| `StreamSlots.DeniedOnlyWhenFullIff` | apps/ai-provider-gateway/src/rate-limit/smart-rate-limiter.service.ts:193-219 | with no rejection pending a denial means that the maximum is held, over every interleaving, if and only if every slot taken is given back |
| `StreamSlots.LeaksStarve` | apps/ai-provider-gateway/src/rate-limit/smart-rate-limiter.service.ts:193-238 | slots that are taken and never released add up: after max of them every request for a slot is turned away with none held |
| `StreamSlots.GiftsOverAdmit` | apps/ai-provider-gateway/src/rate-limit/smart-rate-limiter.service.ts:193-238 | slots that are given back and were never taken add up too: after n of them max + n streams run at once |
| `StreamSlots.ExpiryOverAdmits` | apps/ai-provider-gateway/src/rate-limit/smart-rate-limiter.service.ts:193-238 | when the key expires under max streams their releases drive the counter to −max, and 2·max streams then run at once |
| `StreamSlots.ServedBoundedIff` | apps/ai-provider-gateway/src/rate-limit/smart-rate-limiter.service.ts:193-238 | at most max streams are ever served at once if and only if no request kind streams, or every kind that streams takes a slot, every slot given back was taken, and the key does not expire under a slot |
| `StreamRoutes.MatchedIff` | apps/ai-provider-gateway/src/guards/smart-rate-limit-guard.ts:51-106 | for every routed request: a slot is taken and given back, or neither, if and only if Redis is not used, or: on the stream handler path and URL both or neither end in /stream (limiter off: the URL does not), a facade stream can be translated, and a request for one model is not for a model called stream |
| `StreamRoutes.QueryDecides` | apps/ai-provider-gateway/src/common/interceptors/stream-cleanup.interceptor.ts:17-31 | on the stream handler with the limiter on: always without a query string, and with one if and only if path and query both or neither end in /stream |
| `StreamRoutes.LeakingRequests` | apps/ai-provider-gateway/src/models/controllers/models.controller.ts:38-58 | GET /api/v1/models/stream, POST /api/v1/chat/stream?x=1 and a facade stream whose translation throws are routed, take a slot and never give it back |
| `StreamRoutes.UnmappedFacade` | apps/ai-provider-gateway/src/integrations/openai/controllers/openai-chat-completions.controller.ts:70-94 | the facade takes its slot before it translates the request and enters its try block only after it, limiter on or off |
| `StreamRoutes.StreamSlips` | apps/ai-provider-gateway/src/chat/chat-stream.controller.ts:33-41 | any path that reaches the stream handler and does not end in a small m (a slash at the end, capitals) streams without a slot |
| `StreamRoutes.SlashSlips` | apps/ai-provider-gateway/src/chat/chat-stream.controller.ts:33-41 | POST /api/v1/chat/stream/ reaches the stream handler, streams, and takes no slot |
| `StreamRoutes.LimiterOffGifts` | apps/ai-provider-gateway/src/cache/should-include-redis-stack.ts:32-45 | limiter off and a cache on Redis: plain streams give back slots that facade streams of the key took, so that max + n facade streams run at once |
| `StreamRoutes.AccountingSoundIff` | apps/ai-provider-gateway/src/chat/chat-stream.controller.ts:40-41 | over every interleaving of a set of routed requests of one key the accounting is sound if and only if each of them leaves the counter as it was |
| `StreamRoutes.ServedWithinLimitIff` | apps/ai-provider-gateway/src/chat/chat-stream.controller.ts:40-41 | over every interleaving of a set of routed requests of one key at most max are streamed at once if and only if none streams, or Redis is used, its key does not expire under a slot, and the guard takes a slot for all that the stream handler streams or gives back |
| `StreamRoutes.DeniedWithinLimitIff` | apps/ai-provider-gateway/src/integrations/anthropic/controllers/anthropic-messages.controller.ts:156-232 | over every interleaving of a set of routed requests of one key a denial means max slots held if and only if each of them leaves none behind |
| `SlidingWindow.SoftEmailRateLimiter.TryConsume` | apps/api/src/auth/application/soft-email-rate-limiter.ts:13-25 | filter, compare, push and store: verdict and the new list of the normalised key, other keys untouched |
| `SlidingWindow.PruningIsLossless` | apps/api/src/auth/application/soft-email-rate-limiter.ts:13-25 | refinement: under a nondecreasing clock the pruned list decides every call of every run as a limiter keeping the full history |
| `SlidingWindow.WindowBound` | apps/api/src/auth/application/soft-email-rate-limiter.ts:13-25 | no half-open window of windowMs contains more than maxHits successes of one normalised key, over every run |
| `SlidingWindow.StoredListsStayShort` | apps/api/src/auth/application/soft-email-rate-limiter.ts:13-25 | a stored list never exceeds maxHits, whatever the clock does |
| `SlidingWindow.ClockStepsBack` | apps/api/src/auth/application/soft-email-rate-limiter.ts:13-25 | a clock that steps back makes the two limiters differ: the condition is needed |
| `CircuitBreaker.EmbeddingCircuitBreaker.ShouldSkipEmbed` | apps/ai-provider-gateway/src/cache/semantic/embedding-circuit-breaker.ts:21-28 | closed, open, half-open: the verdict and the one field it sets |
| `CircuitBreaker.EmbeddingCircuitBreaker.RecordEmbedFailure` | apps/ai-provider-gateway/src/cache/semantic/embedding-circuit-breaker.ts:37-43 | the new failure count, opening time and trial flag |
| `CircuitBreaker.FailureCountExact` | apps/ai-provider-gateway/src/cache/semantic/embedding-circuit-breaker.ts:21-50 | over all interleavings of begin, succeed and fail, late settlements included, the counter is the failures since the last success |
| `CircuitBreaker.TrialHasOwner` | apps/ai-provider-gateway/src/cache/semantic/embedding-circuit-breaker.ts:21-50 | a trial flag always has its granted call still outstanding |
| `CircuitBreaker.NoLockout` | apps/ai-provider-gateway/src/cache/semantic/embedding-circuit-breaker.ts:21-28 | once every call has settled, a cooled-down breaker lets the next call through |
| `CircuitBreaker.AtMostOneTrial` | apps/ai-provider-gateway/src/cache/semantic/embedding-circuit-breaker.ts:21-50 | if every embed settles in under cooldownMs, at most one half-open trial is ever outstanding |
| `CircuitBreaker.OneTrialIff` | apps/ai-provider-gateway/src/cache/semantic/embedding-circuit-breaker.ts:21-50 | over all runs whose embeds settle in under d at most one trial is outstanding if and only if d ≤ cooldownMs, for every openAfter ≥ 1 |
| `CircuitBreaker.StaleFailureAllowsSecondTrial` | apps/ai-provider-gateway/src/cache/semantic/embedding-circuit-breaker.ts:37-43 | a call begun before the trip and failing during the trial lets a second trial start beside the first: a concrete run |
| `Singleflight.SingleflightGroup.Call` | apps/ai-provider-gateway/src/chat/helpers/in-process-singleflight.ts:9-20 | a call joins the entry of its key or starts a work of its own |
| `Singleflight.SingleflightGroup.Settle` | apps/ai-provider-gateway/src/chat/helpers/in-process-singleflight.ts:15-17 | settling deletes the entry of the key |
| `Singleflight.InFlightIffPending` | apps/ai-provider-gateway/src/chat/helpers/in-process-singleflight.ts:9-20 | over every run a key is in the map if and only if exactly one work for it is unsettled |
| `Singleflight.CallerGetsPendingWork` | apps/ai-provider-gateway/src/chat/helpers/in-process-singleflight.ts:9-20 | each caller waits for a work of its own key that is unsettled at its call, and keeps waiting for that one |
| `Singleflight.FreshAfterSettle` | apps/ai-provider-gateway/src/chat/helpers/in-process-singleflight.ts:9-20 | after a work settles, the next call with its key starts afresh |
| `Coalescing.JoinsIff` | apps/ai-provider-gateway/src/chat/chat.service.ts:256-270 | after any run, a request waits for another caller's work if and only if that work is unsettled and both have the same alias, client, conversation, messages, prompts and value of every option that counts |
| `Coalescing.FollowersShareRequest` | apps/ai-provider-gateway/src/chat/chat.service.ts:256-270 | callers of one work have all of that in common, over every run |
| `Coalescing.SharedAnswerFits` | apps/ai-provider-gateway/src/chat/chat.service.ts:233-270 | the leader's answer names the follower's alias and conversation and, once stored, is an exact hit for the follower; the request id is the leader's |
| `Resilience.TryAlias` | apps/ai-provider-gateway/src/chat/resilience/resilient-executor.ts:138-206 | the retry loop: its result and its trace of calls and waits |
| `Resilience.ExecuteWithRetryAndFallback` | apps/ai-provider-gateway/src/chat/resilience/resilient-executor.ts:34-136 | primary then fallback: result and whole trace |
| `Resilience.TryIsTheRightStop` | apps/ai-provider-gateway/src/chat/resilience/resilient-executor.ts:138-206 | a result is the loop's if and only if it stops at the first success, the first non-retryable error or the last attempt |
| `Resilience.AttemptsShape` | apps/ai-provider-gateway/src/chat/resilience/resilient-executor.ts:138-206 | the trace of an alias: calls 1, 2, 3, … with one wait between any two |
| `Resilience.SuccessReportExact` | apps/ai-provider-gateway/src/chat/resilience/resilient-executor.ts:34-136 | reported attempts are all calls made, on both aliases together; the last call gave the value, and didFallback if and only if it went to the fallback |
| `Resilience.FallbackOnlyAfterPrimary` | apps/ai-provider-gateway/src/chat/resilience/fallback-chain.ts:5-21 | the fallback is called only after the primary's last call failed; with a fallback equal to the primary nothing is called |
| `Resilience.ExhaustedReportExactIff` | apps/ai-provider-gateway/src/chat/resilience/resilient-executor.ts:270-322 | the exhausted exception reports 2·maxAttempts: the real number of calls if and only if on both aliases every attempt before the last fails with an error that is retried |
| `Resilience.ReportOverstates` | apps/ai-provider-gateway/src/chat/resilience/resilient-executor.ts:270-322 | with any status that is not retried on both aliases, two calls are made and 2·maxAttempts are reported |
| `Resilience.BackoffGrowsToCap` | apps/ai-provider-gateway/src/chat/resilience/resilient-executor.ts:208-217 | waits never shrink and never pass the cap |
| `Resilience.TotalWaitBounded` | apps/ai-provider-gateway/src/chat/resilience/resilient-executor.ts:138-217 | total sleep at most maxAttempts − 1 capped waits per alias |
| `Streaming.StreamSession.StreamOnce` | apps/ai-provider-gateway/src/chat/services/chat-provider-call.service.ts:147-280 | one attempt: meta unless already sent, then every delta as it comes, and the text assembled from exactly those |
| `Streaming.StreamSession.ExecuteStreamMiss` | apps/ai-provider-gateway/src/chat/chat.service.ts:406-545 | all attempts of the executor into one stream, done last, the answer offered to the cache unless it came from the fallback |
| `Streaming.LiveShape` | apps/ai-provider-gateway/src/chat/services/chat-provider-call.service.ts:200-220 | over any sequence of retries and fallback: meta at most once and in front of every delta |
| `Streaming.SuccessfulStream` | apps/ai-provider-gateway/src/chat/services/chat-provider-call.service.ts:200-280 | a successful stream opens with meta and its assembled text is a suffix of all emitted deltas |
| `Streaming.LastCallCloses` | apps/ai-provider-gateway/src/chat/services/chat-provider-call.service.ts:147-280 | the emitted text is the text of the attempts before the last, followed by the assembled text |
| `Streaming.Replay` | apps/ai-provider-gateway/src/chat/services/stream-cache-replay.service.ts:32-96 | the chunk loop: an abort at any question leaves exactly a prefix and no done, none leaves the whole replay |
| `Streaming.ChunksRebuild` | apps/ai-provider-gateway/src/chat/services/stream-cache-replay.service.ts:61-69 | chunks are non-empty, at most 64 long, full except for the last, and concatenate to the stored text |
| `Streaming.ReplayEqualsLive` | apps/ai-provider-gateway/src/chat/services/stream-cache-replay.service.ts:32-96 | for every stored streamed answer the replay has the live meta (but for request id and replay marks), the assembled text, and the very done event of the live stream |
| `LateEmitters.MetaOnceAlways` | apps/ai-provider-gateway/src/chat/services/chat-provider-call.service.ts:200-220 | also with timed-out attempts still emitting: meta at most once, in front of every delta and of done |
| `LateEmitters.PunctualStreamsAreTidy` | apps/ai-provider-gateway/src/chat/services/chat-provider-call.service.ts:200-280 | without late emitters the final text ends what was streamed and nothing follows done |
| `LateEmitters.LateEmitterBreaksBoth` | apps/ai-provider-gateway/src/chat/resilience/resilient-executor.ts:223-268 | with one late emitter neither holds: a concrete run |
| `LateEmitters.TidyForeverIff` | apps/ai-provider-gateway/src/chat/resilience/resilient-executor.ts:223-268 | from any tidy state, every continuation in which the deadline cuts off no reading attempt stays tidy if and only if no attempt that was left still reads |
| `LateEmitters.AlwaysTidyIff` | apps/ai-provider-gateway/src/chat/resilience/resilient-executor.ts:223-268 | all streams are tidy throughout if and only if the deadline never cuts off an attempt that still reads |
| `ChatReply.StoredIsServable` | apps/ai-provider-gateway/src/chat/helpers/cache-policy.ts:19-24 | what may be stored may be served, and without tool calls the converse |
| `CachePipeline.SameParamsIffAgree` | apps/ai-provider-gateway/src/cache/cache-identity.ts:30-48 | two option sets normalise to the same parameters if and only if they agree on all twelve options |
| `CachePipeline.BarJoinInjective` | apps/ai-provider-gateway/src/cache/semantic/adapters/redis-vector-store.adapter.ts:253-279 | parts joined by bars are told apart when none but the last contains a bar (entry keys; aliases, client ids and conversation ids contain none) |
| `CachePipeline.SignatureUniqueIff` | apps/ai-provider-gateway/src/cache/cache-identity.ts:10-21 | no other effective prompt shares the signature of a configuration if and only if none of its three parts contains a bar |
| `CachePipeline.BarsBlurSignatures` | apps/ai-provider-gateway/src/cache/cache-identity.ts:10-21 | with a bar, two different prompt configurations have one signature |
| `CachePipeline.LastUserMessageText` | apps/ai-provider-gateway/src/cache/semantic/last-user-message.ts:3-14 | the backward loop: the trimmed text of the last non-blank user message |
| `CachePipeline.IsSingleTurnUserRequest` | apps/ai-provider-gateway/src/cache/semantic/last-user-message.ts:16-25 | the counting loop: exactly one user message and nothing else |
| `CachePipeline.SingleTurnIsOneMessage` | apps/ai-provider-gateway/src/cache/semantic/last-user-message.ts:16-25 | the semantic layer sees one-message conversations only, so its text key is the conversation up to trimming |
| `CachePipeline.ChatCache.SemanticLookup` | apps/ai-provider-gateway/src/cache/semantic/semantic-cache.service.ts:80-143 | text identity first, then breaker, embedding and the first neighbour above the threshold; every hit is justified by a stored answer |
| `CachePipeline.ChatCache.StoreReply` | apps/ai-provider-gateway/src/cache/semantic/semantic-cache.service.ts:145-189 | which vector is used, whether one is computed, and the one entry added unless the text has one already |
| `CachePipeline.ChatCache.GetCachedIfAllowed` | apps/ai-provider-gateway/src/chat/services/chat-cache-pipeline.service.ts:49-100 | gates, exact hit, deletion of damaged or unservable values, semantic lookup; every reply served is servable and was stored for the same alias, client, conversation, signature and parameters (exact: same messages; hash: same trimmed text; neighbour: similarity at least the minimum) |
| `CachePipeline.ChatCache.SetCachedIfAllowed` | apps/ai-provider-gateway/src/chat/services/chat-cache-pipeline.service.ts:113-155 | when an answer is stored, and the exact and the vector store afterwards |
| `CachePipeline.ChatCache.CompleteChatAndStore` | apps/ai-provider-gateway/src/chat/chat.service.ts:315-352 | an answer of the fallback alias leaves both stores as they were; any other is filed in both if it is allowed |
| `CachePipeline.ChatCache.ExecuteChat` | apps/ai-provider-gateway/src/chat/chat.service.ts:183-273 | one request embeds at most once across lookup and store; what it serves from a cache was justified before it; what a miss files, in terms of the stores and the breaker before the lookup |
| `CachePipeline.StoringKeepsCoherence` | apps/ai-provider-gateway/src/cache/response-cache.service.ts:113-135 | storing keeps the invariant that every value either cache can serve was stored by a fit answer under that key |
| `CachePipeline.UpsertKeepsCoherence` | apps/ai-provider-gateway/src/cache/semantic/semantic-cache.service.ts:177-189 | the same for the vector store |
| `CachePipeline.HashHitJustified` | apps/ai-provider-gateway/src/cache/semantic/semantic-cache.service.ts:93-103 | a text-identity hit comes from an answer stored for the same partition and trimmed text |
| `CachePipeline.NeighbourJustified` | apps/ai-provider-gateway/src/cache/semantic/semantic-cache.service.ts:121-136 | a neighbour hit has the reply of an entry of the partition whose vector lies at the reported similarity from the embedding, at or above the threshold, stored by a fit answer under that entry's text |
| `CachePipeline.StoredRepliesServable` | apps/ai-provider-gateway/src/cache/helpers/is-unservable-cached-reply.ts:3-6 | everything stored has finish reason stop and non-blank text |
| `CachePipeline.SameKeyIff` | apps/ai-provider-gateway/src/cache/response-cache.service.ts:42-63 | exact keys are equal if and only if alias, client, conversation, messages and signature are, and every option that counts has the same value |
| `StreamCaching.StreamAndStore` | apps/ai-provider-gateway/src/chat/chat.service.ts:406-545 | the miss path of a stream: the live events, and the answer filed in both stores if it is the primary's, allowed and fit |
| `StreamCaching.ServeStream` | apps/ai-provider-gateway/src/chat/chat.service.ts:125-181 | lookup, then replay or live stream: the events either way, at most one embedding, and both stores afterwards |
| `StreamCaching.StoredStreamReplays` | apps/ai-provider-gateway/src/chat/services/stream-cache-replay.service.ts:32-96 | the same request after a stored stream is an exact hit whose replay shows the live meta event under the new request id, the answer's text and the same done event |
| `KnnReply.ParseKnnHits` | apps/ai-provider-gateway/src/cache/semantic/parse-knn-hits.ts:22-75 | the nested loops over the reply list: hits and corrupt keys, in order; nothing from a short or empty reply |
| `KnnReply.ReadFields` | apps/ai-provider-gateway/src/cache/semantic/parse-knn-hits.ts:40-43 | the inner loop: the last value of each field name |
| `KnnReply.SentEntriesReadBack` | apps/ai-provider-gateway/src/cache/semantic/parse-knn-hits.ts:35-72 | of the entries sent, the usable ones with a distance become hits in order, the unusable ones are named for deletion, and none is both |
| `KnnReply.HitsAreServable` | apps/ai-provider-gateway/src/cache/semantic/parse-knn-hits.ts:59-63 | whatever the reply list holds, every hit can be served |
| `GatewayConfig.CheckProviders` | apps/ai-provider-gateway/src/config/gateway-config.schema.ts:51-94 | no issue if and only if references are distinct (an earlier row with the empty id is overlooked) and every row is valid; each issue says what is so |
| `GatewayConfig.EmptyIdHidesDuplicate` | apps/ai-provider-gateway/src/config/gateway-config.schema.ts:51-94 | a bootable configuration with one reference used twice, the first time by the empty id; in the other order it is refused |
| `GatewayConfig.CheckFallbacks` | apps/ai-provider-gateway/src/config/gateway-config.schema.ts:217-248 | no issue if and only if every fallback is another existing model that does not fall back to this one |
| `GatewayConfig.CheckLinks` | apps/ai-provider-gateway/src/config/gateway-config.schema.ts:249-292 | no issue if and only if there are models, their providers exist, and every enabled provider has one |
| `GatewayConfig.BuildEffectiveGatewayConfig` | apps/ai-provider-gateway/src/config/configuration.ts:121-172 | accepts exactly when a model is active, no enabled provider is idle and the secrets are there; the result is the effective configuration; each error names its cause |
| `GatewayConfig.MinimalGatewayBoots` | apps/ai-provider-gateway/src/config/configuration.ts:121-172 | there is a bootable configuration: what is proved of bootable configurations is about something |
| `GatewayConfig.AssertEnabledProviderSecretsPresent` | apps/ai-provider-gateway/src/config/configuration-validation.service.ts:32-38 | passes if and only if every enabled provider has its key or base URL |
| `GatewayConfig.EffectiveIdempotent` | apps/ai-provider-gateway/src/config/configuration.ts:126-171 | building twice is building once, and the effective configuration is accepted if and only if the raw one is |
| `GatewayConfig.EffectiveFallbacksIff` | apps/ai-provider-gateway/src/config/configuration.ts:126-171 | the effective configuration still meets the fallback rule if and only if no active model falls back to an inactive one |
| `GatewayConfig.AcceptedOnceValid` | apps/ai-provider-gateway/src/config/configuration.ts:121-172 | after the schema, the start-up check is equivalent to an active model and the secrets |
| `GatewayConfig.CountActiveModelsAfterProviderChange` | apps/ai-provider-gateway/src/cli/utils/effective-config-preview.util.ts:7-22 | the counting loop returns the number of models left active |
| `GatewayConfig.LastInConfigIsLastForProvider` | apps/ai-provider-gateway/src/cli/utils/effective-config-preview.util.ts:24-51 | on a bootable configuration the only model is always also the last of an enabled provider |
| `GatewayConfig.RemoveStaysBootableIff` | apps/ai-provider-gateway/src/cli/utils/effective-config-preview.util.ts:24-51 | removing a model stays bootable if and only if neither last-model predicate holds and no other model falls back to it (the two predicates alone do not decide it) |
| `GatewayConfig.FallbackBlocksRemoval` | apps/ai-provider-gateway/src/cli/services/model-manager.service.ts:680-710 | a bootable configuration and a removal without any warning that is refused |
| `GatewayConfig.RemoveAnywayNeverSaves` | apps/ai-provider-gateway/src/cli/services/model-manager.service.ts:644-704 | whenever a last-model predicate holds the schema refuses what is left, so the announced save of a non-bootable configuration cannot happen |
| `GatewayConfig.MoveStaysBootableIff` | apps/ai-provider-gateway/src/cli/utils/effective-config-preview.util.ts:41-51 | moving a model stays bootable if and only if the target exists and the source is not left without models while enabled |
| `GatewayConfig.MoveAnywayNeverSaves` | apps/ai-provider-gateway/src/cli/services/model-manager.service.ts:517-540 | a confirmed move of the last model is refused as well |
| `GatewayConfig.DisableStaysBootableIff` | apps/ai-provider-gateway/src/cli/utils/effective-config-preview.util.ts:7-22 | disabling stays bootable if and only if the preview count is positive, and the count is the number of models of the new effective configuration |
| `GatewayConfig.DisabledStaysValid` | apps/ai-provider-gateway/src/cli/services/provider-manager.service.ts:560-583 | a confirmed disabling of the last active provider does pass the schema |
| `GatewayConfig.EnableStaysBootableIff` | apps/ai-provider-gateway/src/cli/services/provider-manager.service.ts:551-558 | enabling stays bootable if and only if the provider has a model and its secret |
| `GatewayConfig.SetFallbackValidIff` | apps/ai-provider-gateway/src/cli/services/model-manager.service.ts:542-558 | the three checks before a fallback is edited are equivalent to the schema rule on the result |
| `ProviderRegistry.Registry.OnApplicationBootstrap` | apps/ai-provider-gateway/src/providers/provider-instances.bootstrap.ts:58-96 | succeeds if and only if every enabled instance can start; registers all of them, or those before the first that cannot |
| `ProviderRegistry.SecretsAreWhatStartupNeeds` | apps/ai-provider-gateway/src/providers/provider-instances.bootstrap.ts:62-95 | on valid rows the secrets check of the configuration is equivalent to start-up succeeding, and to the environment holding a key or an http(s) URL for every enabled row |
| `ProviderRegistry.StartedGatewayResolvesIff` | apps/ai-provider-gateway/src/providers/provider-registry.service.ts:164-215 | for an accepted configuration, once started: an alias resolves if and only if it is active; its fallback is returned if and only if active, differs from it, resolves, and does not fall back to it |
| `EnvFile.EnvPatch.ReadVar` | apps/ai-provider-gateway/src/cli/services/env-patch.service.ts:29-38 | the first line of the key |
| `EnvFile.EnvPatch.WriteVar` | apps/ai-provider-gateway/src/cli/services/env-patch.service.ts:40-54 | the loop with its found flag: every line of the key replaced, or one appended |
| `EnvFile.EnvPatch.DeleteVar` | apps/ai-provider-gateway/src/cli/services/env-patch.service.ts:56-61 | all lines of the key dropped |
| `EnvFile.EnvPatch.EnsureVarExists` | apps/ai-provider-gateway/src/cli/services/env-patch.service.ts:68-77 | an existing variable is left alone, a missing one appended |
| `EnvFile.RoundTripIff` | apps/ai-provider-gateway/src/cli/services/env-patch.service.ts:19-27 | lines written are read back if and only if each is non-empty, without break, and not ending in a carriage return |
| `EnvFile.GetSetFileIff` | apps/ai-provider-gateway/src/cli/services/env-patch.service.ts:29-54 | through the file, a value written is read back if and only if it has no line break and does not end in a carriage return |
| `EnvFile.SetSet` | apps/ai-provider-gateway/src/cli/services/env-patch.service.ts:40-54 | the last write wins and leaves no trace of the one before |
| `EnvFile.GetRemove` | apps/ai-provider-gateway/src/cli/services/env-patch.service.ts:56-61 | a removed key is gone; removal changes the lines if and only if the key was there |
| `EnvFile.OtherKeys` | apps/ai-provider-gateway/src/cli/services/env-patch.service.ts:40-61 | for keys without "=", other keys keep their values |
| `EnvFile.OtherKeysFile` | apps/ai-provider-gateway/src/cli/services/env-patch.service.ts:40-54 | through the file, up to one carriage return at the end of a value |
| `EnvFile.RemoveUndoesSetIff` | apps/ai-provider-gateway/src/cli/services/env-patch.service.ts:40-61 | removing what was set restores the lines if and only if the key was new |
| `EnvRollback.BothRollbackIff` | apps/ai-provider-gateway/src/cli/services/provider-manager.service.ts:264-285 | two variables set and removed again, on any file and with any values: the lines are back if and only if both keys were new and the lines are what four chops leave of them, followed by what the values leave after their line breaks; unless a line vanishes and a value leaves something, that is: clean lines, new keys, and values that leave nothing |
| `EnvRollback.OneRollbackIff` | apps/ai-provider-gateway/src/cli/services/client-manager.service.ts:187-194 | the same for one variable and two chops |
| `EnvRollback.LeavesNothingIff` | apps/ai-provider-gateway/src/cli/services/env-patch.service.ts:40-61 | a value leaves nothing if and only if every piece after a line break is so few carriage returns or defines one of the keys |
| `EnvRollback.TailCanStandIn` | apps/ai-provider-gateway/src/cli/services/env-patch.service.ts:40-61 | a line that vanishes and a value that leaves something can hide each other: a concrete file |
| `EnvFile.BrokenValueLeavesItsTail` | apps/ai-provider-gateway/src/cli/services/env-patch.service.ts:40-61 | a value with a line break is not taken back: its tail stays as a line of its own |
| `CliMutations.Cli.PersistConfig` | apps/ai-provider-gateway/src/cli/services/config-persistence.service.ts:28-67 | saves if and only if the schema passes and, unless skipped, the effective build |
| `CliMutations.Cli.ApplyAddModel` | apps/ai-provider-gateway/src/cli/services/model-manager.service.ts:153-206 | refuses an unknown provider or a taken alias, otherwise adds the model |
| `CliMutations.Cli.ApplyAddProvider` | apps/ai-provider-gateway/src/cli/services/provider-manager.service.ts:223-294 | each outcome with the whole state after it: refused by the check, configuration and file are undone; stopped at a taken alias, the provider and the aliases before it stay |
| `CliMutations.Cli.ApplyAddClient` | apps/ai-provider-gateway/src/cli/services/client-manager.service.ts:165-202 | each outcome with the whole state after it, undo included |
| `CliMutations.Cli.ApplyRemoveModel` | apps/ai-provider-gateway/src/cli/services/model-manager.service.ts:680-710 | from a bootable configuration it saves if and only if the result is bootable; a refusal is not undone in memory |
| `CliMutations.Cli.ApplyMoveModel` | apps/ai-provider-gateway/src/cli/services/model-manager.service.ts:517-615 | the same for a move, with its confirmation |
| `CliMutations.Cli.ApplySetEnabled` | apps/ai-provider-gateway/src/cli/services/provider-manager.service.ts:551-583 | from a bootable configuration disabling always saves once confirmed, bootable if and only if a model stays active; enabling saves if and only if model and secret are there |
| `CliMutations.DeletingAddedRestores` | apps/ai-provider-gateway/src/cli/services/provider-manager.service.ts:277-280 | deleting the added aliases restores the models |
| `CliMutations.ProviderRollbackIff` | apps/ai-provider-gateway/src/cli/services/provider-manager.service.ts:264-285 | the undo of a provider restores the lines of any file if and only if its references were new and the lines are what the rewriting leaves of them, followed by what the secrets leave; secrets on one line leave nothing, and then: if and only if the lines were clean and the references new |
| `ContentRun.CancelableIff` | apps/api/src/runs/domain/status-transitions.ts:4-34 | the cancelable statuses are exactly those the table lets reach cancelled, and exactly those with a way on |
| `ContentRun.DecideOk` | apps/api/src/content/application/content-run.executor.ts:92-135 | what an execution decides from what it read fits the stored state; the invalid-selection failure is never taken |
| `ContentRun.StepKeeps` | apps/api/src/content/application/content-run.executor.ts:75-195 | every step (await, fault, claim, resume, cancel, crash, recovery) keeps the invariant |
| `ContentRun.RunIsSafe` | apps/api/src/content/application/content-run.executor.ts:59-177 | over all runs: the outline phase works only while no outline is stored, the copy phase of page_outline_then_copy only on selection [outline.id], completed only after the copy phase with its document, refinements ≤ 2 over the run's whole life, recovery attempts ≤ 3 |
| `RunBounds.RankDrops` | apps/api/src/content/infrastructure/graph/content.graph.ts:57-77 | every modelled step, fault or not, brings an execution nearer its end: at most 25 of them |
| `RunBounds.ExecutionsBounded` | apps/api/src/runs/application/recover-interrupted-runs.use-case.ts:15-46 | with k resume requests in flight at most: once from the queue, at most three times after a crash, at most k times after review |
| `RunBounds.ResumedAtMostIff` | apps/api/src/runs/application/resume-hitl.use-case.ts:36-90 | over all runs with at most k resume requests in flight a run is resumed at most n times if and only if k ≤ n |
| `RunBounds.NeverTwiceAtOnceIff` | apps/api/src/runs/application/resume-hitl.use-case.ts:36-90 | two executions of one run never overlap if and only if at most one resume request is in flight at a time |
| `RunBounds.RunEnds` | apps/api/src/runs/application/lifecycle/in-process-run.worker.ts:82-141 | with k resume requests in flight at most, all executions of a run together take at most 25·(4 + k) modelled steps, however crashes, faults and cancellations fall |
| `RunStatus.TableFollowedIff` | apps/api/src/runs/application/lifecycle/run-lifecycle.service.ts:23-62 | every status change of every run is in the table (so final statuses are final) if and only if nobody cancels, at most one resume request is in flight, and no time stamp of a completion fails otherwise than by an abort; all other faults, lost resumes and crashes are allowed |
| `RunStatus.CancellationLastsIff` | apps/api/src/runs/application/cancel-run.use-case.ts:42-56 | a cancelled run stays cancelled on every continuation if and only if no execution under way can still write its status and no resume request is past its check or about to pass it |
| `RunStatus.WonCancellationLastsIff` | apps/api/src/runs/application/cancel-run.use-case.ts:42-56 | the same read just before the cancellation is won, after every run |
| `RunStatus.CancelOverwritten` | apps/api/src/runs/application/cancel-run.use-case.ts:42-56 | a concrete run from cancelled to completed: the cancellation is won while the execution is about to write its completion |
| `RunStatus.FaultAfterCompletion` | apps/api/src/runs/application/lifecycle/run-lifecycle.service.ts:29-32 | a concrete run whose completion time stamp fails and that goes from completed to failed |
| `ContentRun.RunTable.Recover` | apps/api/src/runs/application/recover-interrupted-runs.use-case.ts:15-46 | the two loops: what becomes of every stored run |
| `ContentRun.BootRecovers` | apps/api/src/runs/application/recover-interrupted-runs.use-case.ts:15-46 | recovery step by step equals the loops, leaves nothing in running, and counts one attempt for each interrupted run |
| `ContentRun.RefineNeverExhausted` | apps/api/src/content/domain/refine-policy.ts:1-12 | over all runs, whenever the graph refines the policy still has a count to give, never above 2, and for the outline it is the number of outline refinements so far plus one |
| `TurnGrouping.MapAssistantTurn` | apps/ai-provider-gateway/src/providers/anthropic/anthropic-tools.mapper.ts:170-193 | the block loop: text first if any, then one block a call with its arguments parsed |
| `TurnGrouping.MapTurnsToAnthropicMessages` | apps/ai-provider-gateway/src/providers/anthropic/anthropic-tools.mapper.ts:70-110 | the nested loops: the mapped messages |
| `TurnGrouping.MapReadsBack` | apps/ai-provider-gateway/src/providers/anthropic/anthropic-tools.mapper.ts:70-110 | flattening the messages gives the turns back in order, arguments parsed; no two result messages are neighbours |
| `TurnGrouping.MessageCount` | apps/ai-provider-gateway/src/providers/anthropic/anthropic-tools.mapper.ts:70-110 | one message per non-tool turn and one per maximal tool run |
| `TurnGrouping.GroupingUnique` | apps/ai-provider-gateway/src/providers/anthropic/anthropic-tools.mapper.ts:70-110 | grouped messages that say the same are the same |
| `TurnGrouping.MappingIsTheGroupedReading` | apps/ai-provider-gateway/src/providers/anthropic/anthropic-tools.mapper.ts:70-110 | a list is the mapping if and only if it is well formed, grouped and says what the turns say |
| `TurnGrouping.ParseAnthropicResponse` | apps/ai-provider-gateway/src/providers/anthropic/anthropic-tools.mapper.ts:112-128 | the block loop of an answer: its text and its calls |
| `TurnGrouping.AnswerRoundTrip` | apps/ai-provider-gateway/src/providers/anthropic/anthropic-tools.mapper.ts:170-220 | an assistant turn read as an answer keeps text, ids and names, and its arguments as printed JSON |
| `TagCodec.EscapeReadsBack` | apps/ai-provider-gateway/src/cache/semantic/escape-tag.ts:17-19 | an escaped value is read as that one tag and swallows nothing of what follows |
| `TagCodec.EscapeInjective` | apps/ai-provider-gateway/src/cache/semantic/escape-tag.ts:17-19 | escaping has an inverse |
| `TagCodec.EscapeIdentityIff` | apps/ai-provider-gateway/src/cache/semantic/escape-tag.ts:6-19 | a value goes through unchanged if and only if it has no reserved character |
| `TagCodec.FilterReadsBack` | apps/ai-provider-gateway/src/cache/semantic/adapters/redis-vector-store.adapter.ts:172-181 | a filter is read as one tag a field, whatever the values contain |
| `TagCodec.FilterIdentifiesPartition` | apps/ai-provider-gateway/src/cache/semantic/adapters/redis-vector-store.adapter.ts:172-181 | two searches have one filter text if and only if they search one partition |
| `TagCodec.StoredAsOneTagIff` | apps/ai-provider-gateway/src/cache/semantic/escape-tag.ts:9-15 | a value is stored as the one tag that finds it if and only if it has no comma |
| `TagCodec.SafeIdsAreFound` | apps/ai-provider-gateway/src/cache/semantic/escape-tag.ts:21-23 | an accepted id is stored and searched as the same single tag |
| `Sse.FrameReadsBack` | apps/ai-provider-gateway/src/chat/sse/sse.serializer.ts:2-4 | a frame followed by anything reads back as its event, then the rest |
| `Sse.StreamReadsBack` | apps/ai-provider-gateway/src/chat/sse/sse.serializer.ts:2-4 | a stream of frames reads back as the same events in order |
| `Sse.CutInsideFrame` | apps/ai-provider-gateway/src/chat/sse/sse.serializer.ts:2-4 | a stream cut inside a frame loses that frame only |
| `Sse.SurvivesIff` | apps/ai-provider-gateway/src/chat/sse/sse.serializer.ts:2-4 | with one-line data an event survives if and only if its name is one non-empty line |
| `Sse.NamesAreOneLine` | apps/ai-provider-gateway/src/chat/sse/sse.serializer.ts:2-4 | no event read from any stream has a line break in its name |
| `CompanyContext.IsComplete` | apps/api/src/company-context/domain/is-complete.ts:43-48 | complete if and only if every section is filled; missing lists exactly the unfilled ones |
| `CompanyContext.CollectGateItemPaths` | apps/api/src/company-context/domain/is-complete.ts:50-96 | exactly the blank item fields, each once; empty if and only if all items are complete |
| `CompanyContext.AssertAudienceProfileNamesUnique` | apps/api/src/company-context/domain/assert-audience-profile-names-unique.ts:5-24 | passes if and only if no two profiles share a non-empty normalised name |
| `CompanyContext.AssertCompanyContextWritable` | apps/api/src/company-context/domain/assert-company-context-writable.ts:9-24 | passes if and only if complete and unique; the error lists exactly the missing sections and blank fields |
| `CompanyContext.MergeComposes` | apps/api/src/company-context/domain/merge-company-context.ts:4-25 | two patches in a row are one patch, a patch twice is that patch, and the empty patch changes nothing |
| `ContextPatches.ContextStore.PutContext` | apps/api/src/company-context/application/put-company-context.use-case.ts:18-22 | stores if and only if writable; what is stored stays complete with unique names |
| `ContextPatches.ContextStore.ReadForPatch` | apps/api/src/company-context/application/patch-company-context.use-case.ts:19-22 | read, merge and check: refused if and only if the merge is not writable |
| `ContextPatches.ContextStore.WritePatch` | apps/api/src/company-context/application/patch-company-context.use-case.ts:23-23 | the merge of what was read replaces whatever is stored by now |
| `ContextPatches.StoredStaysWritable` | apps/api/src/company-context/application/patch-company-context.use-case.ts:19-25 | over every interleaving of patches and writes only writable contexts are stored |
| `ContextPatches.WriteIsFreshIff` | apps/api/src/company-context/application/patch-company-context.use-case.ts:19-25 | a patch writes what it would write had it read just now if and only if nothing it leaves out has changed since its read |
| `ContextPatches.OverlapKeepsBothIff` | apps/api/src/company-context/application/patch-company-context.use-case.ts:19-25 | of two patches that both read before either writes nothing is lost if and only if the first to write brings nothing new to a field the other leaves out |
| `ContextPatches.FreshRunsAreSerial` | apps/api/src/company-context/application/patch-company-context.use-case.ts:19-25 | a run whose writes are all fresh stores what its writes make one after another |
| `CompanyContext.PatchRefusedForItsOwn` | apps/api/src/company-context/application/patch-company-context.use-case.ts:19-25 | on a written context a patch is refused if and only if it brings a blank or incomplete value or clashing names itself |
| `CompanyContext.WithEffectiveAudience` | apps/api/src/company-context/domain/with-effective-audience.ts:4-24 | the find loop: the first profile with the brief's normalised name, or none |
| `CompanyContext.EffectiveIsTheMatch` | apps/api/src/company-context/domain/with-effective-audience.ts:4-24 | on a written context the effective audience is a profile if and only if it is the one that matches |
| `CompanyContext.AudienceOrderIrrelevant` | apps/api/src/company-context/domain/with-effective-audience.ts:4-24 | the order of the profiles does not matter |
| `CompanyContext.ClashMakesOrderMatter` | apps/api/src/company-context/domain/assert-audience-profile-names-unique.ts:5-24 | with clashing names it would |

## Left out

- Redis, Prisma, HTTP, SMTP, provider SDKs and file access: they are the atomic maps, counters and answers above.
- Fail-open branches of limiter, caches and vector store: a miss or an admission without any bound to prove.
- Per-client limits lookup, cooldown after status 429, and the check of the gateway key in front of the guard: finite lookups; the requests of `StreamRoutes` have passed it and are those of one key.
- Why a facade request cannot be translated: whether it can is a field of the request.
- The vector store's healing of half-written entries: entries are whole or absent here, and a search returns what the store promises.
- CachePipeline.ChatCache.ExecuteChat: one request at a time, with other requests between its calls; concurrent misses are in `Singleflight` and `Coalescing`.
- Timeouts inside `runOnce`: an attempt's outcome is an input, and a timed-out attempt that goes on emitting is in `LateEmitters`.
- Policies, capabilities, client types and rate limits in the configuration: shape rules only, no cross-field rule.
- Prompt files, YAML text and backups written by the command line; removing providers, editing clients and rotating keys.
- `dotenv` loading before the effective check: the environment the check sees is an input.
- Social task types, the text of run logs, SSE hub messages, review deadlines and guest quotas: they do not touch the run machine.
- The LangGraph nodes that only prepare prompts: drafting, verdict, refinement and persistence are the awaits that matter.
- EnvFile.OtherKeysFile: values are compared up to one final carriage return, because rewriting the file drops it.
- Streaming.ReplayEqualsLive: speaks of attempts that have stopped emitting; the others are in `LateEmitters`.
- Updates in place of nested configuration rows: the command line's configuration is one value replaced as a whole.
- A run without an asset kind is kept as the branch of `execute` that it is, although no stored run has none.
- `ContentRunExecutor.execute` is its awaits, one step each, rather than one method, because a crash may fall between any two.
- Anthropic tool schemas, tool choice and usage details: finite mappings.
- Tag search treats only backslash escapes, bars and braces of the query syntax; other query features are not used by the filter.
