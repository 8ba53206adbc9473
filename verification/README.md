# PRISMUX in Dafny

PRISMUX is an AI gateway: clients send OpenAI-style requests, the gateway waits for capacity, tries the
targets of a route in order, translates between provider formats, streams answers back, and keeps a log
that its dashboard reads. This project models the logic behind that and proves what it keeps.

| file | models |
|---|---|
| `limiter.dfy`, `bucket_laws.dfy` | the token bucket and the laws of its runs |
| `admission.dfy`, `request_waits.dfy`, `reservations.dfy`, `controller.dfy` | admission control: tasks interleaved at every await, what its two waits cost, and the controller as an object |
| `reloads.dfy` | generations of controllers across registry reloads |
| `queue_state.dfy` | the live queue gauges |
| `routing.dfy`, `routing_laws.dfy`, `ledger.dfy` | the chat, embeddings and streaming loops over an arbitrary list of outcomes, their laws, and what they cost real controllers |
| `text.dfy`, `registry.dfy` | string search and trimming; selector resolution and provider-scoped endpoints |
| `anthropic.dfy`, `prepare_laws.dfy` | requests to and responses from the Anthropic adapter, and what a prepared request says |
| `ordering.dfy`, `streaming.dfy`, `accumulator_laws.dfy`, `stream_laws.dfy` | stream translation, the stream accumulator, and their agreement with the one-shot translation |
| `sse.dfy`, `sse_laws.dfy`, `sse_crlf.dfy`, `test_stream.dfy` | server-sent event framing, the incremental parser of the dashboard, the cuts it can see, and whole test streams |
| `control_plane.dfy`, `control_plane_laws.dfy`, `control_plane_runs.dfy`, `control_plane_effects.dfy`, `control_plane_starts.dfy`, `control_plane_service.dfy` | provider, route and settings handlers over their tables and the in-memory registry |
| `chart_ranges.dfy`, `status_sql.dfy`, `charts.dfy`, `queue_samples.dfy` | chart windows, SQL status conditions, bucket aggregation |
| `request_log.dfy`, `retention.dfy`, `throttle.dfy` | log filters and keyset paging, purging, the login throttle |

`dafny verify dfyconfig.toml` checks everything. Objects the program updates in place are classes with the
same fields; each of their methods is tied to a function of the old state, and the laws are lemmas about
those functions. Time and token levels are reals. A clock never goes backwards and a sleep lasts at least
as long as asked. An upstream call is represented by its outcome.

## Where the code does less than it promises

Each of these is stated with its exact condition.

- A token burst below one is accepted (`app/multi_provider.py:54-55`), but the chunk loop then asks for zero
  tokens for ever: it can end exactly when the capacity is at least one
  (`ChunkLoopEndsIffCapacityIsWhole`, `HalfATokenSpins`). In the program an acquire of nothing returns without
  suspending (`app/limiter.py:17-18`), so in that loop no other task runs either; the model lets the others go on.
- Resetting the queue gauges while a request waits makes them drift; in a run they stay exact exactly when
  every reset finds nothing in flight (`GaugesExactIffResetsWhenIdle`, `ResetHidesARequest`).
- A registry reload builds fresh controllers while requests still use the old ones. Right after it the
  concurrency limit can be exceeded exactly when in an older generation some request holds a permit, or still
  waits for one it can get, or may yet come in from a loop that has the old runtimes among its targets
  (`LimitIsExceededIffOlderStillWanted`, `WaitingRequestStraddles`); the most holders that can come about is
  the sum of what the generations can let through (`LimitIsExceededIffMostExceeds`).
- The login throttle checks before the awaited sign-in and records a failure after it. With up to `m` logins of
  one key in flight at once it lets `attempts - 1 + m` recent failures through, no more, and that many can
  happen; `attempts` itself is never exceeded exactly when `m` is one (`ThrottleBound`,
  `AttemptsHoldIffOneAtATime`, `TwoLoginsOutrunTheCheck`).
- A response that only calls tools comes back with a text block `None`; the text block equals the joined
  text exactly when that is nonempty (`ToolCallsRoundTrip`, `NoneIsInvented`).
- Input fragments of a block that is not open as a tool are appended to tool call 0: with a tool opened the
  calls are right exactly when those fragments join to nothing, and otherwise call 0 holds them among its own
  in stream order; without one a nameless call appears exactly when there is a fragment (`StrayFragmentsCorruptCallZero`, `StrayFragmentInventsACall`).
- Line breaks are normalised per network chunk, so a CRLF that a cut divides is left as it is
  (`NormalizeEachIsNormalize` says when the texts differ). For frames with CRLF line ends the dispatched events
  are those of the whole text exactly when no cut divides the blank line of a frame other than the last, nor
  the data line of a frame whose payload is `[DONE]` or that JSON.parse takes differently with a carriage
  return behind it; a cut at the end of an event line never matters (`CutsShowIff`, `CutInsideDoneShows`,
  `CutInsideBlankLineShows`).
- A frame is read back exactly when its payload is one nonempty line that does not start with white space
  and its name, if any, is one line without white space around (`FrameSurvivesIffClean`).
- `PUT /api/settings` stores a provider configuration without validating it. When the two URLs differ in
  origin the row is committed, the reload fails, and the registry stays behind; two more handlers can then
  leave the tables without a default provider (`SettingsSyncIffSameOrigin`, `RegistryFreezes`,
  `CrossOriginLosesTheDefault`). Unless a valid configuration is stored while the process is still up
  (`ValidUpdateRepairs`), the next start fails and so does every later one (`CrossOriginNeverStartsAgain`);
  a start succeeds exactly when all stored configurations are valid and one is the default, or nothing is
  stored and the environment's configuration is valid (`StartSucceedsIff`).
- Charts count a row without a wait and with a status below 400 as a success, although no SQL status
  condition selects it (`ChartsAgreeWithSql`, `SeriesSumsToSelectedRows`).

## Model

| member | source | states |
|---|---|---|
| Limiter.RefillIsInvisible | app/limiter.py:22-28 | storing a refill at any moment changes no later level |
| Limiter.LevelInRange | app/limiter.py:41-44 | the level lies between 0 and the capacity at every later moment |
| Limiter.SleepDecidesNextTry | app/limiter.py:24-31 | after a failed pass, sleeping the computed wait succeeds exactly when the amount fits the capacity, and any shorter sleep fails |
| Limiter.SleepFills | app/limiter.py:30 | the computed wait is the exact time the level needs to reach the amount |
| Limiter.LonePass | app/limiter.py:22-31 | the two passes a lone waiter can make take the amount from the continuously filled level |
| Limiter.ReconfiguredBucket | app/limiter.py:46-54 | after new limits the bucket fills by the new rpm in every minute, and what was there stays as far as it fits |
| Limiter.TokenBucket.constructor | app/limiter.py:8-13 | a new bucket is full and its rate is a sixtieth of the rpm |
| Limiter.TokenBucket.Pass | app/limiter.py:23-29 | one critical section of acquire as a step of the bucket value |
| Limiter.TokenBucket.Acquire | app/limiter.py:15-31 | a lone acquire ends after at most one sleep; it raises, without effect, exactly on amounts above capacity, and otherwise waits only if it must and takes exactly the amount |
| Limiter.TokenBucket.Refund | app/limiter.py:33-39 | a refund refills and adds, clipped at the capacity; amounts not positive change nothing |
| Limiter.TokenBucket.ReadLevel | app/limiter.py:41-44 | reading shows the filled level within bounds and changes nothing |
| Limiter.TokenBucket.Reconfigure | app/limiter.py:46-54 | new limits keep the level as far as the new capacity allows, and the bucket stays valid |
| BucketLaws.Conservation | app/limiter.py:15-54 | in every run: start level + integrated rate + refunds = grants + spilled tokens + end level |
| BucketLaws.WindowBound | app/limiter.py:8-54 | over every window of every run, grants are at most the capacity at its start plus the rate integrated over it plus its refunds, and the level stays within bounds |
| BucketLaws.AccruedAtConstantRate | app/limiter.py:25 | without reconfiguration the integrated rate is rate times elapsed time |
| BucketLaws.LazyRefillIsExact | app/limiter.py:22-44 | striking out level reads, failed passes and empty refunds leaves every grant and every later level of a run unchanged |
| BucketLaws.GrantsExactlyTheBoundedSchedules | app/limiter.py:15-31 | a full bucket grants every request of a schedule if and only if no window of it asks for more than capacity plus rate times length |
| Admission.StepKeepsCounters | app/multi_provider.py:139-167 | every step of every task keeps each gauge equal to the number of tasks it stands for and the permits conserved |
| Admission.StepKeepsBuckets | app/multi_provider.py:144-151 | every step keeps both buckets valid and what is left of a reservation between 1 and its size |
| Admission.StepTellsTheTime | app/multi_provider.py:139-167 | the clock stands at the latest pass or refund |
| Admission.RunKeepsInv | app/multi_provider.py:139-167 | the invariant holds in every reachable state of every interleaving |
| Admission.AdmissionProtocol | app/multi_provider.py:139-167 | from a fresh controller, in every interleaving: queued = tasks inside acquire on every way out, permits are never oversold, active = admitted holders + tasks before the decrement, and the clamp at zero never fires |
| RequestWaits.StepCostsARequest | app/multi_provider.py:144-145 | in any step a task gets past its first wait exactly when a request is there, and takes just that one; nothing else touches the request bucket, and a task kept waiting found less than one |
| RequestWaits.FirstWaitIsBucketRun | app/multi_provider.py:144-145 | the request bucket of any controller run goes through a legal run of bucket events, whose grants are the tasks that get past the first wait, one request each, at the moments they do |
| RequestWaits.AdmissionsAreCharged | app/multi_provider.py:144-145 | over any run the request bucket has been charged one request for each task that got past the first wait, no more and no less |
| RequestWaits.AdmissionRate | app/limiter.py:15-31 | from any moment of any run on, at most the capacity plus the rate times the elapsed time get past the first wait |
| Reservations.ChunksNeverRaise | app/multi_provider.py:146-151 | the chunk loop never asks for more than the capacity, so the inner acquire never raises |
| Reservations.PaidIsNoLongerOwed | app/multi_provider.py:146-151 | under any interleaving the chunks taken by a task are exactly what it no longer owes |
| Reservations.ChunksAreBucketfuls | app/multi_provider.py:149 | a chunk is the whole part of the capacity, or all that is left of the reservation |
| Reservations.RunIsBucketRun | app/multi_provider.py:146-163 | the token bucket of any controller run goes through a legal run of bucket events that grants exactly what all tasks paid |
| Reservations.ReservationSumsAndTakesTime | app/multi_provider.py:146-151 | a task past the chunk loop has taken max(1, reservation) in all, and without refunds not sooner than (total - capacity) / rate seconds |
| Reservations.ChunkLoopEndsIffCapacityIsWhole | app/multi_provider.py:146-151 | the chunk loop can end without an exception if and only if the token capacity is at least one |
| Reservations.EmptyChunksSpin | app/multi_provider.py:149 | with a capacity below one a task in it never leaves the loop, whatever else happens |
| Reservations.HalfATokenSpins | app/multi_provider.py:54-55 | a fresh controller with half a token of burst: its first task reaches the chunk loop and then spins in every run |
| Reservations.ReserveTokens | app/multi_provider.py:146-151 | the loop ends; chunks are positive, whole bucketfuls but for the last, and sum to max(1, reservation); the bucket has been charged exactly that |
| Reloads.MoveIsSound | app/main.py:105-120 | a step in any generation, or a reload, keeps every generation's controller sound |
| Reloads.HoldersAreBounded | app/main.py:118-120 | in every history of steps and reloads, holders are at most the limit times the generations still held, and within the limit when at most one is held |
| Reloads.HoldersStayWithinMost | app/multi_provider.py:139-167 | whatever steps the generations take, holders never exceed the sum of what each can let through: its limit where requests may still come in and get through, else its requests inside that hold a permit or wait where they can get through, up to the limit |
| Reloads.LimitIsExceededIffMostExceeds | app/multi_provider.py:139-167 | some steps reach exactly that sum, so a limit can be exceeded if and only if the sum exceeds it |
| Reloads.AllArePromoted | app/multi_provider.py:144-157 | the requests inside that can get through take permits until none is left of either |
| Reloads.AllAreAdmitted | app/multi_provider.py:139-159 | newcomers alone can take every free permit of a controller whose buckets hold one request and one token |
| Reloads.LimitIsExceededIffOlderStillWanted | app/main.py:118-120 | right after a reload the new limit can be exceeded if and only if in an older generation a request holds a permit, or waits where it can get through, or may yet come in at a bucket that lets requests through |
| Reloads.NewcomersExceedIffHeld | app/main.py:118-120 | with all older requests standing still, newcomers can exceed the new limit if and only if a request already holds an older permit |
| Reloads.WaitingRequestStraddles | app/main.py:529-544 | a request that only waits at the reload, nobody holding anything, is enough to exceed a limit of one |
| Limiter.ChargesAdd | app/limiter.py:15-31 | what is taken from a bucket in two waits is the sum of both, whatever time passes: never more than the unclipped account allows, never less than a bucket left alone would show |
| Controller.CapacityController.Wait | app/multi_provider.py:144-151 | both waits of acquire charge one request and max(1, reservation) tokens, no more and no less; it fails, without effect, exactly when the request bucket cannot hold a request |
| Controller.CapacityController.Acquire | app/multi_provider.py:139-159 | the queue gauge is back on every way out; success counts one active holder and one permit and charges one request and max(1, reservation) tokens |
| Controller.CapacityController.Release | app/multi_provider.py:161-167 | gives back the permit and the unused part of the reservation; active never goes below zero |
| QueueGauges.QueueState.Inc | app/queue_state.py:19-22 | one more request in total and for its model, others unchanged |
| QueueGauges.QueueState.Dec | app/queue_state.py:24-27 | one request less in total and for its model, never below zero |
| QueueGauges.QueueState.Reset | app/queue_state.py:33-36 | both gauges are empty |
| QueueGauges.EndKeepsExact | app/queue_state.py:24-27 | ending a request in flight finds both gauges positive and leaves them exact |
| QueueGauges.GaugesCountRequestsInFlight | app/queue_state.py:19-27 | in every interleaving without a reset the gauges count the requests in flight, in total and per model |
| QueueGauges.GaugesNeverShowTooMuch | app/queue_state.py:19-36 | whatever resets there are, the gauges stay between zero and the requests in flight, in total and per model |
| QueueGauges.ResetIsExactIffIdle | app/queue_state.py:33-36 | a reset leaves the gauges exact if and only if nothing is in flight |
| QueueGauges.ExactAfterPrefix | app/queue_state.py:19-36 | exact throughout means exact after every prefix of the run |
| QueueGauges.GaugesExactIffResetsWhenIdle | app/queue_state.py:19-36 | in every run with resets the gauges stay exact after every step if and only if each reset finds nothing in flight |
| QueueGauges.ResetHidesARequest | app/main.py:2268-2272 | a reset under a running request later hides another one |
| Routing.StopExists | app/main.py:544-639 | every run over at least one target stops at the first target that does not pass |
| Routing.StopIsTheFirst | app/main.py:544-639 | the stopping target is determined by the outcomes alone |
| Routing.Gateway.Store | app/main.py:520-523 | one request row, its attempts filed under it in order |
| Routing.Gateway.OnException | app/main.py:559-590 | each caught exception releases without a token count and is labelled and recorded by its kind |
| Routing.Gateway.TryChat | app/main.py:545-605 | one chat target: calls, record and whether the loop goes on, as the shared specification says |
| Routing.Gateway.TryEmbeddings | app/main.py:660-712 | the same for embeddings |
| Routing.Gateway.TryStream | app/main.py:866-919 | the same for streaming, where an opened stream is released with its measured tokens |
| Routing.Gateway.TryChatTargets | app/main.py:544-602 | the chat loop ends at the first target without fallback, with exactly the calls and attempts of that prefix |
| Routing.Gateway.TryEmbeddingsTargets | app/main.py:659-711 | the embeddings loop does the same |
| Routing.Gateway.TryStreamTargets | app/main.py:866-916 | the streaming loop does the same |
| Routing.StopByOutcome | app/multi_provider.py:20 | a run goes past a target exactly when every target up to it was tried, is not the last, and was blocked, unreachable, or answered 408, 429, 500, 502, 503, 504 or 529 |
| Routing.RunRepliesByOutcome | app/main.py:544-996 | an answer of those statuses is returned only when every target was tried; a timeout or a broken request is the last attempt; status and text of an error reply name what went wrong there |
| Routing.Gateway.ForwardChat | app/main.py:525-639 | a chat request leaves exactly the calls, rows, attempts and reply of a run that stops at the first target that calls for no other, also when acquire raises, and replies by outcome |
| Routing.Gateway.ForwardEmbeddings | app/main.py:642-746 | an embeddings request refines the same specification and replies by outcome |
| Routing.Gateway.ForwardStream | app/main.py:855-996 | a streaming request refines the same specification and replies by outcome |
| Routing.StopsHere | app/main.py:562-639 | what has to be stored and replied when a loop ends: refused, raised, answered, or given up with the last attempt as its row |
| RoutingLaws.TriedIsThePrefix | app/main.py:544-554 | capacity is acquired for exactly the tried targets, in order |
| RoutingLaws.ThreeLoopsTryTheSamePrefix | app/main.py:544-996 | given the same outcomes all three loops try the same prefix, and go on exactly past blocked and unreachable targets and the seven statuses |
| RoutingLaws.PassedTargetsKeepTheirCharge | app/main.py:559-602 | each passed-over target is released once and keeps its full reservation charged |
| RoutingLaws.CapacityLedger | app/main.py:544-639 | in every run each acquired controller is released once, with its reservation, before the next is acquired; each gauge increment has its decrement, also when acquire raises; the last target is charged min(reserved, actual) when the counts are known, else the reservation; and every call names the request's selector and reservation |
| Ledger.BucketLedger | app/multi_provider.py:139-167 | the level of a controller's token bucket after any interleaving: start plus fill, less spill, less what all tasks took, plus what they gave back |
| Ledger.VisitIsCharged | app/multi_provider.py:139-167 | one acquire and release, other tasks interleaved at will, costs the bucket the reservation, or the actual use when known and less |
| Ledger.AcquireRaisesIffCramped | app/limiter.py:19-20 | over all runs, cancellation aside: a task's acquire can raise if and only if the request bucket cannot hold one request, and then in no run does it get past its first wait |
| Ledger.PassRaisesIffCramped | app/limiter.py:19-20 | the first pass at such a bucket raises, a pass at any other does not, and the task that raised leaves the queue |
| Ledger.TargetCost | app/main.py:545-617 | what the controller of each target has lost when the calls made for it are carried out |
| Ledger.RoutedRunIsCharged | app/main.py:544-639 | the net debit of a routed request's calls is what its controllers' token buckets have lost together |
| RoutingLaws.WaitsAddUp | app/main.py:554-555 | the total wait is the sum of the waits of the attempts |
| RoutingLaws.AttemptsAreWellNumbered | app/main.py:545-639 | attempts are numbered 1..k and exactly the non-last ones carry a fallback reason |
| RoutingLaws.RowCountsItsAttempts | app/main.py:612-639 | the row's wait, attempt count, provider and model are those of its attempts |
| RoutingLaws.StoredHistory | app/main.py:612-639 | a run stores exactly one request row, with its numbered attempts, unless the last target refused the payload or a stream was never opened; statuses, labels, token counts and reasons of row and attempts are those of the outcomes |
| Text.Find | app/multi_provider.py:571-572 | the leftmost occurrence, or none anywhere |
| Text.PythonSpaces | app/multi_provider.py:566 | what strip takes for white space, by code point |
| Text.ScriptSpaces | frontend/src/lib/api.ts:91-97 | what trim takes for white space, and where that differs from Python |
| Text.TrimIsTight | app/multi_provider.py:566 | nothing is left to strip at either end |
| Text.CutsAtFirst | app/multi_provider.py:343 | splitting once at a character gives back the parts before and after its first occurrence |
| Registry.ProviderRegistry.EnabledTargets | app/multi_provider.py:578-584 | the enabled targets of a route, in order |
| Registry.LegalIdsMatchThePattern | app/multi_provider.py:43 | the ids taken for legal are exactly those the pattern matches |
| Registry.GetIsTheFirst | app/multi_provider.py:581 | a provider is found by its id if and only if one has it |
| Registry.DefaultIsTheFirst | app/multi_provider.py:558-563 | the default is the first provider flagged so, if any |
| Registry.SelectorIsStripped | app/multi_provider.py:566-568 | white space around a selector does not matter, and a blank one names no model |
| Registry.NoSelectorMeansTheDefaultModel | app/multi_provider.py:566-568 | without a selector the default provider's model is asked for |
| Registry.SelectorResolves | app/multi_provider.py:569-576 | an alias leads to its targets, any other unqualified selector is a model of the default provider, and half a qualifier is refused |
| Registry.ScopeRefuses | app/main.py:1016-1032 | a refused scoped request lacks what the refusal says |
| Registry.QualifierIsFound | app/multi_provider.py:571-572 | a legal provider id in front of `::` is found again whatever follows |
| Registry.QualifiedSelectorResolves | app/multi_provider.py:565-576 | a qualified selector resolves to its provider and model unless it is itself an alias |
| Registry.ScopedSelector | app/main.py:1016-1034 | an accepted payload is rewritten to the provider and the model asked for with at most its own qualifier removed |
| Registry.DirectEndpointHitsItsProvider | app/main.py:1016-1034 | the scoped selector resolves to the single target asked for if and only if it is not an alias for something else; always when no alias contains `::` |
| Registry.DirectEndpointHasOneTarget | app/multi_provider.py:578-584 | resolving and filtering a direct request leaves its one enabled provider |
| Registry.SeparatorInAliasCaptures | app/multi_provider.py:569-570 | an alias with `::` would capture a direct request |
| Anthropic.TranslateContent | app/multi_provider.py:327-351 | content parts become blocks in order; the first bad part decides the error |
| Anthropic.DataUrlIsTakenApart | app/multi_provider.py:342-344 | a base64 data URL gives back its media type and data if and only if the media type has no comma and no semicolon |
| Anthropic.TranslateCalls | app/multi_provider.py:389-396 | tool calls follow the content in order; unparsable arguments raise |
| Anthropic.TranslateMessage | app/multi_provider.py:376-397 | what one message contributes, by role, or the error it raises |
| PrepareLaws.RequestIsSaid | app/multi_provider.py:367-398 | a request is accepted exactly when every message can be said; then each says its piece in order under its role: instructions, a user or tool-result turn with the call's id, or an assistant turn of content and calls |
| PrepareLaws.PartsAreSaid | app/multi_provider.py:327-351 | parts are accepted exactly when each is text, an image by base64 data or web address, or no object; they become blocks one by one in order |
| PrepareLaws.FirstBadMessageIsBlamed | app/multi_provider.py:367-398 | a refusal is about the first message that cannot be said, and names what is wrong with it |
| PrepareLaws.EstimateCountsWhatIsSaid | app/multi_provider.py:176-187 | the estimate counts the characters that the prepared message says |
| PrepareLaws.SilentMessagesCountNothing | app/multi_provider.py:176-187 | a message without text does not change the estimate |
| Anthropic.ReadingIsPiecewise | app/multi_provider.py:424-443 | texts are joined and tool calls listed in order, whatever stands between them |
| Anthropic.PrepareRequest | app/multi_provider.py:367-398 | the whole request, or the first error in message order |
| Anthropic.PrepareIsPiecewise | app/multi_provider.py:376-397 | a conversation translates piece by piece: nothing is reordered or lost, the first error wins |
| Anthropic.NormalizeResponse | app/multi_provider.py:424-443 | joined text or none, tool calls in order; the finish reason is length, tool_calls, stop or the provider's own exactly for the stop reasons that mean it; counts and their sum |
| Anthropic.CallsComeBack | app/multi_provider.py:389-443 | normalised tool calls parse back to the original blocks if and only if printing their inputs loses nothing |
| Anthropic.ToolCallsRoundTrip | app/multi_provider.py:386-443 | anywhere in a conversation, a replayed response whose inputs print back gives one turn of a text block and the original tool calls in order; the text block is the joined text if and only if that is nonempty |
| Anthropic.NoneIsInvented | app/multi_provider.py:330-331 | a concrete response that only calls a tool comes back with a text block None |
| Anthropic.PreparedMessageReadsBack | app/multi_provider.py:386-443 | an assistant message with text, prepared and normalised, is itself if and only if its arguments are spelled as the printer spells them |
| Streaming.StreamTranslator.Translate | app/multi_provider.py:451-498 | each upstream event's chunk and the translator's new state |
| Streaming.StreamAccumulator.Consume | app/main.py:761-819 | the lines of a chunk are absorbed in order; whether it closed the stream, and whether it carried output |
| Streaming.StreamAccumulator.ConsumeEvent | app/main.py:778-818 | one event's effect on every field, under either name of the reasoning text |
| Streaming.StreamAccumulator.ConsumeCalls | app/main.py:807-818 | call pieces are merged by index in order |
| Streaming.Relay | app/main.py:926-939 | the streaming loop consumes the fold of both over the events and passes on every chunk but the closing mark |
| Streaming.EstimateRequestedTokens | app/multi_provider.py:176-187 | a token per four characters of text begun, in parts of any type, plus the requested limit, at least one |
| Streaming.SizesAdd | app/multi_provider.py:177-185 | the text size of a conversation is the sum over its parts |
| StreamLaws.PlaceIsLookedUp | app/multi_provider.py:482 | the call a fragment goes to: the place of its open block, or 0 |
| StreamLaws.StepStaysInStep | app/multi_provider.py:469-487 | each body event keeps the translator's indexes and the accumulated calls in step with what the stream has spelled, stray fragments included |
| StreamLaws.BodyRuns | app/multi_provider.py:451-498 | that holds after every prefix of every body that opens each block at most once |
| AccumulatorLaws.AccumulatorKeeps | app/main.py:762-818 | whatever chunks a provider sends: the last report of id, finish reason, error and each count is kept, text and reasoning are joined in order, and each tool call is pieced together from its own pieces |
| AccumulatorLaws.ClientSeesTheSame | app/main.py:923-944 | a client that puts the forwarded chunks together gets what the gateway has recorded |
| AccumulatorLaws.ErrorsAreRecorded | app/multi_provider.py:494-497 | the last error that the provider reports inside a stream is recorded |
| StreamLaws.StreamedPayload | app/main.py:836-852 | what a complete stream yields, read off its events; the finish reason tells the stop reason, and the counts are those of the message |
| StreamLaws.StreamEqualsWhatItSpells | app/multi_provider.py:424-498 | any such stream equals the one-shot translation if and only if it spells the same text and tool calls |
| StreamLaws.CallsTakeTheirOwn | app/multi_provider.py:481-487 | call k takes exactly the fragments of the k-th opened block; what call 0 takes is the stream-order interleaving of its own with every stray one |
| StreamLaws.StrayFragmentsCorruptCallZero | app/multi_provider.py:481-487 | with a tool opened, the calls are those of the opened blocks if and only if the stray fragments join to nothing; else call 0 has them among its own in stream order and the others are right |
| StreamLaws.StrayFragmentInventsACall | app/multi_provider.py:481-487 | without any tool opened a nameless call of the stray text appears if and only if there is a fragment |
| StreamLaws.StreamEqualsOneShot | app/multi_provider.py:424-498 | without stray fragments, for every interleaving of deltas, the streamed id, content, tool calls, finish reason and counts equal the one-shot translation if and only if the body is a cut of the same blocks |
| StreamLaws.BilledCounts | app/main.py:821-834 | reported counts are the one-shot counts exactly when both are known; a missing prompt count is estimated from the request text, a missing completion count from the streamed text and thinking |
| Ordering.NumberedComesBack | app/main.py:841 | a map that numbers a list, read in key order, is the list |
| Sse.Blocks | frontend/src/lib/api.ts:113-118 | a text cut at its blank lines never leaves a boundary in the last piece |
| Sse.BlocksAppend | frontend/src/lib/api.ts:110-121 | more text only reopens the last block |
| Sse.ReadLines | frontend/src/lib/api.ts:92-97 | event name and data lines of a block |
| Sse.StreamParser.DispatchBlock | frontend/src/lib/api.ts:90-108 | one block's event, or none |
| Sse.StreamParser.Notify | frontend/src/lib/api.ts:100-107 | done, meta, result or chunk, or a parse failure |
| Sse.StreamParser.Feed | frontend/src/lib/api.ts:112-118 | one chunk dispatches exactly the completed blocks; the buffer left holds no boundary |
| Sse.ReadStream | frontend/src/lib/api.ts:110-121 | whatever the chunks, the events are those of parsing their normalised concatenation at once |
| Sse.FailureIsFinal | frontend/src/lib/api.ts:104 | after a payload that does not parse nothing more is dispatched |
| SseLaws.NormalizeAppend | frontend/src/lib/api.ts:112 | normalising two pieces apart differs from normalising the whole exactly when the cut divides CRLF |
| SseLaws.NormalizeEachIsNormalize | frontend/src/lib/api.ts:112 | the chunks normalised one by one give the text normalised as a whole if and only if no cut divides a line break |
| SseLaws.EventsDoNotDependOnTheCuts | frontend/src/lib/api.ts:110-121 | any two cuts of one text that divide no line break dispatch the same events |
| SseLaws.NoCarriageReturnNoCut | frontend/src/lib/api.ts:112 | text without carriage returns is never cut inside a line break |
| SseLaws.BlocksOfFrames | app/main.py:923-994 | clean frames, printed, are read back as the same names and payloads |
| SseLaws.FramesRoundTrip | app/main.py:923-994 | however the printed frames are cut, exactly their names and payloads are delivered, in order |
| SseLaws.PlainFrameSurvivesIffClean | app/multi_provider.py:468-498 | a bare data frame is read back if and only if its payload is one nonempty line not starting with white space |
| SseLaws.FrameSurvivesIffClean | app/main.py:923-994 | a frame, named or bare, is read back if and only if payload and name are clean |
| TestStream.TestStreamArrives | app/main.py:923-994 | however the network cuts a test stream, the dashboard gets exactly meta, every chunk in order, result and done, each with its value |
| SseCrlf.NormalizeEachKeeps | frontend/src/lib/api.ts:112 | chunk by chunk exactly the line breaks that a cut divides are left |
| SseCrlf.MergedFramesAreLost | frontend/src/lib/api.ts:113-121 | every frame whose blank line is divided, save the last, is run into the next and costs a read |
| SseCrlf.CutsShowIff | frontend/src/lib/api.ts:90-121 | clean CRLF frames in any chunks dispatch what the whole text does, which is what was sent, if and only if every cut is harmless: none in a blank line before the last frame, none at the end of a data line unless the payload is not the closing mark and parses the same with a carriage return behind it |
| SseCrlf.CutInsideDoneShows | frontend/src/lib/api.ts:100-103 | a cut in the line end of the closing mark dispatches something else |
| SseCrlf.CutInsideBlankLineShows | frontend/src/lib/api.ts:113-117 | a cut in the blank line between any two frames dispatches something else |
| ControlPlaneLaws.UpsertIsSound | app/db.py:131-157 | storing a provider keeps columns equal to the JSON and at most one default |
| ControlPlaneLaws.UpsertKeepsDefault | app/db.py:131-157 | storing loses the default if and only if it rewrites the default row without the flag |
| ControlPlaneLaws.DeleteKeepsDefault | app/db.py:160-162 | deleting loses the default if and only if it deletes the default row |
| ControlPlaneLaws.LoadAfterReplace | app/db.py:193-215 | loading after replacing gives the same aliases with the same targets in order if and only if every alias has a target |
| ControlPlaneLaws.ReplaceIsSound | app/db.py:205-215 | replaced routes name known providers and number their targets from 0 |
| ControlPlaneLaws.SoundRoutesLoad | app/main.py:105-120 | over sound routes a reload fails only on an invalid provider row |
| ControlPlaneLaws.NormalizedTargets | app/main.py:1853-1860 | targets are accepted if and only if their providers are known and their models nonempty, and keep their order |
| ControlPlaneLaws.NormalizedRoutes | app/main.py:1842-1860 | a route update is accepted if and only if every entry is acceptable and no stripped alias repeats, and the routes are those asked for |
| ControlPlaneRuns.HandlersAreSafe | app/main.py:1523-1863 | whatever the registry believes, no handler breaks the tables |
| ControlPlaneRuns.RegistryStaysUnambiguous | app/main.py:105-120 | no handler makes the registry see two defaults, even when it is stale |
| ControlPlaneRuns.RunsAreSafe | app/main.py:1523-1863 | in every run rows agree with their JSON, at most one is default, targets name providers, aliases have targets |
| ControlPlaneRuns.HandlersKeepTheDefault | app/main.py:1523-1780 | while the registry knows the default no handler leaves the tables without one |
| ControlPlaneRuns.CommitSyncs | app/main.py:105-134 | committing puts the registry in step if and only if every row is valid; otherwise it stays as it was |
| ControlPlaneRuns.SettingsSyncIffSameOrigin | app/main.py:1568-1587 | an accepted settings request keeps tables and registry in step, and is answered, if and only if both URLs have one origin |
| ControlPlaneRuns.HandlersSync | app/main.py:1523-1863 | with such settings every handler keeps tables and registry in step and fails only without effect |
| ControlPlaneRuns.SeedSyncs | app/main.py:179-193 | a fresh start stores one valid default provider |
| ControlPlaneRuns.RunsSync | app/main.py:179-1863 | from a seeded start every such run keeps exactly one default, sound tables and a registry that mirrors them |
| ControlPlaneRuns.RoutesReadBack | app/main.py:1861-1863 | accepted routes are read back as they were asked for, in tables and registry |
| ControlPlaneRuns.RegistryFreezes | app/main.py:105-120 | while an invalid row is stored no handler changes the registry |
| ControlPlaneRuns.CrossOriginLosesTheDefault | app/main.py:1568-1587 | from every synced state with a spare provider, settings of two origins and two more handlers leave no default |
| ControlPlaneRuns.SparesAreReached | app/main.py:1692-1715 | such states are reached from a seeded start |
| ControlPlaneEffects.DoneMeansDone | app/main.py:1523-1863 | an answered request has stored what it asked for, field by field, in rows, columns and registry: the configuration created or updated, the row deleted, the routes, or the default provider's addresses, model and aliases; every other provider and route is as it was, but for the default flag it loses to a new default |
| ControlPlaneEffects.RefusedForAReason | app/main.py:1523-1863 | a refused request has changed nothing, and each refusal names a fault the request really has |
| ControlPlaneStarts.StartSucceedsIff | app/main.py:179-233 | a start on sound tables succeeds if and only if all stored configurations are valid and one is the default, or none is stored and the environment's is valid; then tables and registry are in step, else nothing changes |
| ControlPlaneStarts.LivesAreSafe | app/main.py:105-233 | requests and starts in any order, failed starts among them, leave sound tables |
| ControlPlaneStarts.UpIffEverSeeded | app/main.py:179-233 | from empty tables, through any starts and same-origin requests, the process is up if and only if some start found a valid configuration, and then all is in step |
| ControlPlaneStarts.DownForGood | app/main.py:105-233 | tables that no process can start on never change again |
| ControlPlaneStarts.CrossOriginNeverStartsAgain | app/main.py:1568-1587 | after an accepted settings request of two origins the next start fails, and so does every later one |
| ControlPlaneStarts.ValidUpdateRepairs | app/main.py:1725-1763 | storing a valid configuration for that provider while the process is up puts all in step again |
| ControlPlaneService.CheckTargets | app/main.py:1853-1860 | the target loop: the stripped targets or the first error |
| ControlPlaneService.CheckRoutes | app/main.py:1844-1860 | the route loop: the normalised routes or the first error |
| ControlPlaneService.ClearStored | app/db.py:135-139 | the JSON loop clears every flag and nothing else |
| ControlPlaneService.WriteRoutes | app/db.py:209-214 | the inserts succeed exactly when the table constraints hold, and write every target at its priority |
| ControlPlaneService.Service.UpsertProvider | app/db.py:131-157 | the stored rows after an upsert |
| ControlPlaneService.Service.ReplaceRoutes | app/db.py:205-215 | all routes are replaced, or none |
| ControlPlaneService.Service.ReloadRegistry | app/main.py:105-134 | the registry read back from the tables, or left as it was |
| ControlPlaneService.Service.Start | app/main.py:179-193 | seeding and the first load |
| ControlPlaneService.Service.Create | app/main.py:1691-1715 | tables, registry and reply after a create |
| ControlPlaneService.Service.Update | app/main.py:1725-1765 | tables, registry and reply after an update |
| ControlPlaneService.Service.Delete | app/main.py:1768-1780 | tables, registry and reply after a delete |
| ControlPlaneService.Service.Route | app/main.py:1841-1863 | tables, registry and reply after a route update |
| ControlPlaneService.Service.Configure | app/main.py:1523-1591 | tables, registry and reply after a settings update |
| ChartRanges.RoundFortieth | app/chart_ranges.py:31 | the nearest integer, the even one of two equally near |
| ChartRanges.CeilDiv | app/chart_ranges.py:32 | the least number of buckets that cover the window |
| ChartRanges.PresetsMeanWhatTheySay | app/chart_ranges.py:4-10 | the windows are those the keys name, in 30, 36 or 48 buckets |
| ChartRanges.BucketsCoverTheWindow | app/chart_ranges.py:17-33 | (count - 1) * bucket < window <= count * bucket for every range and age, with equality for presets |
| ChartRanges.AllWithoutHistory | app/chart_ranges.py:27-30 | without any history the window is five minutes |
| ChartRanges.AllShowsTheHistory | app/chart_ranges.py:27-30 | "all" spans the whole history and at most a second, or a padded minute, more |
| ChartRanges.AllHasAboutFortyBuckets | app/chart_ranges.py:31-32 | "all" has at most 42 buckets, and at least 38 if and only if the window exceeds 370 seconds |
| StatusSql.WordsMean | app/db.py:18-22 | with a known wait, charts and SQL mean the same: an error has no status or one from 400 on but 429, throttled is 429 or a good status after over two seconds, the rest are successes |
| StatusSql.TruthsAreOrdered | app/db.py:18-22 | SQL's conjunction is the lesser and its disjunction the greater of no, unknown and yes |
| StatusSql.ChartsAgreeWithSql | app/db.py:18-44 | chart labels and SQL conditions classify a row alike if and only if its wait is known or its status is not below 400 |
| Charts.SlotIsAnInterval | app/db.py:808-814 | bucket i holds exactly the ages from count - 1 - i to count - i buckets |
| Charts.SlotCoversTheChart | app/db.py:808-814 | a row is in some bucket if and only if its age is between 0 and the length of the chart |
| Charts.StatusBreakdown | app/db.py:800-822 | the three arrays count the rows of each bucket and label |
| Charts.SeriesSumsToSelectedRows | app/db.py:784-822 | each series sums to the rows on the chart that meet its SQL condition; success also counts the rows no condition selects |
| QueueSamples.AggregateSamples | app/db.py:842-855 | per bucket: the greatest depth, the token total and the number of samples |
| QueueSamples.BucketShowsItsOwn | app/db.py:842-860 | a bucket counts and averages exactly the samples whose age lies in its interval |
| QueueSamples.FillGaps | app/db.py:856-863 | each level is the average of its bucket, else of the nearest earlier nonempty one, else of the first nonempty one, else 0 |
| QueueSamples.FillIsUnique | app/db.py:856-863 | that determines every level |
| QueueSamples.SampleBuckets | app/db.py:825-865 | depths and levels of the whole chart from the samples |
| RequestLog.BuildWhere | app/db.py:877-912 | the conditions, in order |
| RequestLog.WhereSelects | app/db.py:877-912 | the conditions select exactly the rows below before_id that match every filter given; NULL matches none |
| RequestLog.QueryMeansSelect | app/db.py:953-959 | the query answers what the filters mean |
| RequestLog.SelectIsExact | app/db.py:953-959 | the answer holds exactly the matching rows |
| RequestLog.SelectDescends | app/db.py:955 | in strictly descending id order |
| RequestLog.NextPageContinues | app/db.py:890-892 | asking below the last id of a page continues exactly there |
| RequestLog.LaterRowsStayAbove | app/db.py:890-892 | rows inserted later never appear below an older id |
| RequestLog.SearchRequests | app/main.py:2169-2189 | one page, has_more, and the count of all matching rows |
| RequestLog.Browse | app/main.py:2181-2189 | following before_id ends and yields each row that matched at the first query exactly once, newest first, as many as total_matching, even while rows are inserted |
| Retention.OldestExpiredGoFirst | app/db.py:316-321 | what the first statement deletes is expired and older than every expired row that it leaves |
| Retention.PassIsSafe | app/db.py:314-325 | a pass keeps every row that is unexpired and among the newest max_rows |
| Retention.PassKeepsOrder | app/db.py:314-325 | a pass invents no row and keeps the order |
| Retention.PassesMakeProgress | app/db.py:314-325 | each pass makes up 5000 rows of both backlogs |
| Retention.PurgeConverges | app/db.py:314-325 | ceil(max(expired, excess) / 5000) passes leave no expired row and at most max_rows rows |
| Retention.Table.InsertRow | app/db.py:314-325 | the table after an insert, remembered in its history |
| Retention.Table.PurgeTable | app/db.py:314-325 | the table after both deletions; every row never found expired and among the newest max_rows ever inserted is still in it |
| Retention.NewestRowsSurvive | app/db.py:314-325 | in every run of inserts and purges, a row never found expired and among the newest max_rows ever inserted is still there |
| Throttle.DropExpired | app/auth.py:51-52 | trimming an ordered queue leaves exactly the newer times |
| Throttle.LoginThrottle.Trim | app/auth.py:49-56 | the queue of the key is exactly its failures since the last success newer than the window, in order |
| Throttle.LoginThrottle.Allowed | app/auth.py:58-59 | allowed if and only if fewer than `attempts` such failures |
| Throttle.LoginThrottle.Failure | app/auth.py:61-62 | one failure more in the log, at the second clock reading |
| Throttle.LoginThrottle.Success | app/auth.py:64-65 | the key's failures are forgotten, others kept |
| Throttle.MoveCounts | app/main.py:1196-1219 | a failure of a key adds one to its recent failures, a success forgets them, nothing else touches them; a login is let in exactly below the limit |
| Throttle.LoginThatFails | app/main.py:1196-1219 | after a login's failure the recent failures exceed `attempts` by at most those that others recorded since its check |
| Throttle.FailuresAreBounded | app/main.py:1191-1219 | in every run with at most m logins of a key in flight, its recent failures and logins in flight together stay within attempts - 1 + m |
| Throttle.ThrottleBound | app/main.py:1191-1219 | that bound holds in every such run and is attained in one |
| Throttle.AttemptsHoldIffOneAtATime | app/main.py:1191-1219 | `attempts` itself is never exceeded if and only if logins of a key are not in flight together |
| Throttle.TwoLoginsOutrunTheCheck | app/main.py:1196-1219 | one attempt allowed, two logins checked before either fails, two recent failures |

## Left out

- HTTP clients, DNS, cookies, JWT, HMAC, Fernet, FastAPI plumbing and outbound policy: foreign; represented by outcomes and by the flag `checks` of the handlers.
- Cancellation inside the forwarding loops and exceptions outside the caught set: the code does not release there, so the ledger covers the handled outcomes.
- Fairness of bucket and semaphore waiters, and interleaved admin handlers: the code promises neither; a handler is one step.
- Float rounding and clock resolution: reals; only `resolve_range` rounds.
- TokenBucket.Acquire: states the retry loop of a caller that has the bucket to itself; other callers between two passes are steps of `Admission` and events of `BucketLaws`.
- CapacityController.Acquire: the caller has the controller to itself and finds a permit free; interleavings, waiting for a permit and cancellation are in `Admission`.
- ReserveTokens: requires a token capacity of at least one, since below that the loop does not end; `ChunkLoopEndsIffCapacityIsWhole` covers the rest.
- Routing.Gateway.ForwardStream: an opened stream is one outcome with its token counts and its interruption; chunk by chunk it is `Streaming`. First-token time and cost are not stored in the model.
- Ledger.RoutedRunIsCharged: over providers that limit tokens; a controller without a token bucket has nothing to lose.
- Reloads.HoldersAreBounded: over histories with one limit; in the other lemmas about reloads every generation has its own.
- Reloads.LimitIsExceededIffMostExceeds: an open generation may be entered by any number of requests.
- CutsShowIff: payloads and names hold no carriage return, and every payload is the closing mark or parses; event streams of other shapes have `NormalizeEachIsNormalize` and `EventsDoNotDependOnTheCuts`.
- Throttle.ThrottleBound: sign-in, roles and audit events are not modelled; a login ends by failure, success, or an exception that is not caught.
- Routing.Gateway.ForwardChat, Routing.Gateway.ForwardEmbeddings: bodies of answers, health marks, cost and `sanitize` are not modelled; a row holds what the attempts determine.
- PrepareRequest: sampling parameters, tools, tool_choice and max_tokens are copied fields and are not modelled; tool calls and their functions are objects, arguments are strings.
- NormalizeResponse: a token count is an integer or missing; other JSON values are not modelled; a stop reason other than the four known ones is kept under its own name, also when it spells one of the mapped words.
- StreamEqualsOneShot: thinking text is kept by the stream and dropped by the one-shot translation, so it is not compared; printing a chunk as JSON and parsing it again is taken as the identity, one data line to a chunk.
- EstimateRequestedTokens: the embeddings estimate is not modelled; texts of parts are strings.
- ReadStream: works on decoded text; UTF-8 decoding and fetch are not modelled; JSON.parse is an arbitrary partial function.
- FramesRoundTrip: names and payloads must be clean; `FrameSurvivesIffClean` shows that this is needed.
- Service.Configure: requires at most one default in the registry, which `RegistryStaysUnambiguous` shows every handler keeps; pricing, stored application settings, credentials and purging are not modelled.
- RunsSync: URLs are represented by their origins, an unreadable port among them, and provider rows by the fields the handlers decide on.
- Load: the join of the route tables is a function, its rows being read in priority order.
- Registry health, discovery of models, legacy keys and pricing reloads: lookups beside the modelled state.
- Browse: rows deleted between two pages are not modelled.
- BuildWhere: SQL text and parameter binding are not modelled; conditions are values with SQL's three truth values, ILIKE an arbitrary relation.
- SampleBuckets: levels before rounding to three digits.
- StatusBreakdown: takes the rows the query has selected; the selection by time and provider is SQL.
- Retention.Table.PurgeTable: the two deletions are functions of the table in id order; the advisory lock and the transaction are not modelled.
- CSV export, cost formulas, roles and the React pages: they would only add easy members.
