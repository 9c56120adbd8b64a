# A verified model of the LatticeLM gateway core

LatticeLM puts one OpenResponses endpoint in front of several LLM providers. This project models the parts of it that
hold state across steps, and proves what those parts are for.

**The streamed response** (`Api`, `ToolPolicy`, `StreamSpec`, `StreamClient`, `StreamAggregate`, `SyncPath`,
`StreamRefinement`, `StreamErrors`, `StreamEvents`, `Endings`, `Projections`, `MapOrder`, `StreamServer`).
`StreamServer.ResponseStream` is the imperative state machine of `handleStreamingResponse`: one text item and any
number of tool calls in a map, whose iteration order is left open. It refines `StreamSpec`, where a stream is a list
of items in order of first appearance. Three results rest on that. A strict client that follows the event protocol
accepts every run and rebuilds the completed output (`StreamClient.EveryRunIsAccepted`). For every chunking and
interleaving the run agrees with the synchronous path on the result that the deltas amount to, which is defined by
independent projections (`StreamRefinement.StreamRefinesSync`). Early tool-policy rejections are exact
(`StreamRefinement.EarlyChecksAreExact`).

**Conversations** (`Requests`, `Replay`, `Conversations`, `Histories`, `NormalizeInput`, `InputKept`). Turns inherit
context, overlay provider-native messages, resolve item references and store a new conversation. The invariant of
every store that any sequence of turns and deletions can reach is `Conversations.EveryStoredConversation`; what
overlay and references do on such a store follows from it, and so does what a conversation reads like (`Histories`).

**Rate limits** (`TokenBucket`, `RateLimiter`, `LimitsAttained`). The token bucket is a class over real tokens with
key expiry; the concurrency counter and the daily quota are shared state that any number of requests change in
interleaved atomic steps, with time as part of the state. The bounds are shown to be attained.

**The path of a delta** (`Channels`, `Relay`, `Instrumentation`). Provider goroutine, breaker relay, metrics wrapper
and receive loop are state machines that interleave freely over unbuffered delta channels and one-place error
channels.

**Together** (`Composition`). In every schedule of the gateway's goroutines, a streamed Anthropic reply is answered
and stored as the synchronous path answers the same reply received whole.

**Smaller cores**: Anthropic accumulation against extraction (`Anthropic`, `AnthropicStream`, `AnthropicReplay`), the
usage batcher (`UsageStore`), restartable migrations (`Migrations`), key refresh and backoff (`Jwks`).

Each operation is proved against a specification function, and what that function means is stated beside it in terms
of the inputs' own fields: which calls a policy accepts (`ToolPolicy.CallsAreAcceptedExactlyWhen`), what a turn
answers and stores (`Histories.AnswerReportsTheReply`), what a conversation reads (`Histories.ContinuedTurnReads`),
what normalisation keeps (`InputKept.GroupingKeepsEverything`), what a replay message keeps
(`AnthropicReplay.ExtractionKeepsTheReply`), how a failed stream is reported (`Endings.StreamReportsItsEnding`), which
calls a bucket admits (`TokenBucket.AdmittedExactlyWhen`).

## What the proofs found

Where the code does not meet the property one would state first, the project gives a failing input and proves exactly
when the code does meet it.

- Retrieving a stored synchronous response gives back its items if and only if the result was not empty or the last
  assistant message before it is silent (`SyncPath.RetrievalRoundTrip`). An empty result over an assistant text is
  retrieved with the old text as its own (`SyncPath.AnEmptyResultShowsOldText`).
- A streamed turn with an empty result stores nothing, while the synchronous one stores
  (`StreamRefinement.StreamRefinesSync`; `StreamRefinement.AnEmptyStreamIsNotStored` for the stream without deltas). A
  client can then hold a completed response id that it cannot continue.
- A refused turn is refused on both paths, but they can report different errors (`StreamErrors.ErrorsCanDiffer`). They
  report the same one if and only if the tool declarations do not decode, or the first call ahead of the one refused
  early that ends up with a refused name, if any, has the same name; so always when the calls ahead already had their
  names (`StreamErrors.ErrorsAgreeExactlyWhen`).
- A provider-native message is lost when the result is tool calls only, because only a message item carries it
  (`Conversations.NativeReplayNeedsText`, `Conversations.StreamedNativeReplayNeedsText`). A reply that thinks and then calls
  a tool is replayed without its thinking block (`Composition.AThinkingBlockIsLost`).
- A reference to an item of the previous response does not add it: the history already ends with that message, and the
  reference repeats it in front (`Histories.ContinuedTurnReads`).
- A provider error reaches the client with its text on the streaming path and without it on the synchronous one; an open
  breaker is reported alike (`Endings.StreamReportsItsEnding`, `Endings.SyncReportsItsError`).
- The 5 s margin on the bucket's expiry covers 2.5 s of clock skew and not a millisecond more
  (`TokenBucket.ExpiryIsInvisible`, `TokenBucket.LargerSkewIsVisible`); beyond it the window bound itself breaks
  (`TokenBucket.LargerSkewBreaksTheWindow`).
- `ReleaseConcurrent` is commented as keeping the counter from going below zero, but its main path is a plain decrement.
  One request that outlives the 300 s key leaves -1 (`RateLimiter.SlowReleaseGoesBelowZero`). The counter is negative if
  and only if expiries have thrown away more slots than are in flight, so never when handlers return in time
  (`RateLimiter.BelowZeroMeansLost`).
- Instrumentation is built around the circuit breaker, and its non-blocking read can run before the breaker's relay has
  forwarded the error. Deltas are never lost. The conclusion of a stream survives every schedule if and only if no
  admitting breaker stands behind the wrapper, or there is no error to lose, or the server stops before the end
  (`Instrumentation.ErrorsSurviveExactlyWhen`). Otherwise some schedule ends without the error
  (`Instrumentation.AnyErrorCanBeLost`) and the turn is answered as completed when its calls pass the policy
  (`Instrumentation.ALostErrorCompletesTheTurn`).
- A faultless stream counts as a failure of the provider if and only if a proper prefix of it stops the server, by an early
  `done` or a refused call (`Relay.DoneTellsTheScript`; `Relay.AnEarlyStopCountsAsFailure` and
  `Relay.DoneThenMoreIsAFailure` give such runs). Behind the metrics wrapper success is sure under the same condition
  (`Instrumentation.SuccessIsSureExactlyWhen`); when the server stops exactly one delta early, the schedule decides
  (`Instrumentation.TheScheduleDecides`).
- Without any disconnect the metrics wrapper can stay blocked for good on a delta that nobody reads, if and only if the
  stream goes on after the server stops (`Instrumentation.WrapperCanStayExactlyWhen`).
- The text of an Anthropic stream is the text of the reply, for all streams of a shape, if and only if no text delta returns
  to an earlier block (`AnthropicStream.EmittedTextNeedsBlockOrder`, `AnthropicStream.AGarbledStream`); and, in block order,
  if and only if text blocks open empty (`AnthropicStream.EmittedTextNeedsEmptyOpenings`,
  `AnthropicStream.AnOpeningTextIsNotEmitted`). Its calls are those of the reply, when their ids differ, if and only if
  tool blocks open in order (`AnthropicStream.CallsNeedOpeningOrder`, `AnthropicStream.ToolsOpenedBackwardsDiffer`).
- The two paths replay the same Anthropic tool calls if and only if each tool's JSON pieces spell its input
  (`AnthropicStream.ReplayMessageNeedsInputs`). A tool with input `{}` and no piece does not
  (`AnthropicStream.AToolWithoutPiecesDiffers`).
- Two migration files with one version fail once and are then silently treated as applied
  (`Migrations.ARepeatedVersionIsSkipped`). A completed run has recorded all versions if and only if they are distinct
  (`Migrations.CompletionRecordsAllExactlyWhen`).
- A `Record` beside `Close` can be accepted and never written (`UsageStore.ARecordCanBeLost`). Every accepted event is
  handed over if and only if no `Record` comes after the goroutine's final flush; those between `Close` and that flush are
  still drained (`UsageStore.AllHandedOverExactlyWhen`).

## Modelling decisions

- `generateID` results are consecutive naturals, so distinct calls give distinct ids. Raw JSON fields are the values that
  they decode to; a nil pointer, slice or map is `None` or empty.
- Maps are iterated in arbitrary order (`:|`); the proofs hold for each order.
- A Redis script, a database transaction and a channel operation are one atomic step each. Clocks, timestamps, provider
  output and identity-provider answers are parameters.
- Tokens of the bucket are `real`: rounding of Lua numbers is not modelled. Client times of the bucket are microseconds
  and server times milliseconds, as in the script.
- In `Anthropic`, the `input` of a tool block is its JSON text. The theorems about the stream assume that the JSON pieces
  concatenate to it, that text blocks open empty, and nothing about how blocks interleave beyond what each states.

## Model

| member | source | states |
|---|---|---|
| ToolPolicy.FirstRejection | internal/server/server.go:1078-1090 | an error results if and only if some call bears a refused name |
| ToolPolicy.ValidateToolCalls | internal/server/server.go:1078-1099 | the loop gives the first refused call's error, else the missing-call verdict of the tool choice |
| ToolPolicy.CallsAreAcceptedExactlyWhen | internal/server/server.go:1041-1099 | from choice, declarations and calls alone: accepted if and only if the choice decodes, calls are made only where allowed and made where required, and every name is declared, is the required one and is among the allowed ones |
| ToolPolicy.RefusalIsReported | internal/server/server.go:1041-1099 | which error a refusal reports: the choice, then a forbidden call, then the first offending name, then a missing call |
| Requests.RequestAcceptsExactlyWhen | internal/server/server.go:1041-1099 | the same from a request's own fields; a missing choice is automatic and missing tools are none |
| ToolPolicy.UnnamedRejectionIsFinal | internal/server/server.go:1041-1076 | a call refused while still unnamed is refused under every name, for the same reason |
| ToolPolicy.VerdictBlamesCalls | internal/server/server.go:1078-1099 | no validation error can be taken for a provider error |
| StreamSpec.FoldIsWellShaped | internal/server/server.go:755-842 | at most one text item, and one item per provider index, after any deltas |
| StreamSpec.FoldStopped | internal/server/server.go:836-838 | no delta after the loop is left changes anything |
| StreamClient.AcceptedTraceShape | internal/server/server.go:693-972 | an accepted trace starts with its only in_progress event and ends with its only terminal event |
| StreamClient.EveryRunIsAccepted | internal/server/server.go:693-972 | a strict client accepts every uncut run; it ends with exactly the run's error, or with the completed output list rebuilt from the events it saw |
| StreamEvents.EverythingIsSentAtOnce | internal/server/server.go:755-842 | after any read deltas, every piece of text and of arguments has been sent once, in order, and every call announced with the id and name it was first heard of with |
| StreamEvents.IdsAreConsecutive | internal/server/server.go:716-740 | items get consecutive fresh ids in order of appearance |
| StreamAggregate.UpToDone | internal/server/server.go:836-838 | the read part of the deltas is a prefix of them, and all of them when none is done |
| Projections.ReadsToTheFirstDone | internal/server/server.go:836-838 | what is read is everything up to the first done, and everything when there is none |
| Projections.OneDelta | internal/server/server.go:761-838 | the projections of one delta are its own fields |
| Projections.MoreDeltas | internal/server/server.go:761-838 | text and arguments are joined in order, the first id, name and model set stay, the last usage and native message win |
| Projections.CallsAppearInOrder | internal/server/server.go:781-797 | the calls are those that some delta touches, each once |
| StreamAggregate.FoldAgrees | internal/server/server.go:761-838 | for every chunking, the loop has refused a call that those deltas really name badly, or its text, calls, model, usage and replay are the independent projections of the deltas |
| SyncPath.BuildOutputItems | internal/server/server.go:1324-1356 | the items of a result: the text first, then the calls in order |
| SyncPath.HandleSyncResponse | internal/server/server.go:581-656 | a provider error or a failed validation refuses the turn, and nothing else does; otherwise the response, and a conversation exactly when storage applies |
| Histories.AnswerReportsTheReply | internal/server/server.go:581-656 | in either mode an answer reports the reply's usage, its model or else the requested one, and its text and calls as items |
| Histories.AnswerIdsDiffer | internal/server/server.go:1324-1356 | no two items of an answer share an id |
| Histories.StoredExactlyWhen | internal/server/server.go:98-103 | a turn is stored if and only if its own request says so, or says nothing and the default does; an empty streamed reply is not |
| Histories.TurnLeaves | internal/server/server.go:614-627 | a stored turn leaves its messages and the reply, its request and model, and one replay item for each answered item, at the reply's position, with provider, kind and native message |
| Histories.RetrievalShowsTheLastAnswer | internal/server/server.go:512-547 | retrieval shows the last assistant message: one part for each block with its kind and text, then its calls |
| Endings.SyncReportsItsError | internal/server/server.go:582-588 | unavailable if and only if the breaker was open, and any other provider error without its text |
| SyncPath.RetrievalRoundTrip | internal/server/server.go:411-420 | retrieval rebuilds the returned items, ids aside, if and only if the result was not empty or the last assistant message of the history is silent |
| SyncPath.AnEmptyResultShowsOldText | internal/server/server.go:411-420 | an empty result after an assistant text answers no items and is retrieved with that text |
| StreamRefinement.EarlyChecksAreExact | internal/server/server.go:797-823 | the loop refuses a call if and only if validation of the aggregated calls would; otherwise the result is the aggregate |
| StreamRefinement.EarlyRejectionIsFinal | internal/server/server.go:875-878 | however an early-refused stream went on, the final validation would refuse it |
| StreamRefinement.RejectionPersists | internal/server/server.go:797-823 | an early refusal is the same error for every continuation |
| StreamRefinement.OutputRefinesSync | internal/server/server.go:950-966 | the streamed items with the message moved first are the synchronous items of the same result |
| StreamRefinement.StreamRefinesSync | internal/server/server.go:853-995 | streamed and synchronous turns are refused together, answer alike, and store the same conversation, but for the empty result |
| StreamRefinement.AnEmptyStreamIsNotStored | internal/server/server.go:974-977 | without deltas the streamed turn is answered and not stored, and the synchronous one on the same result is stored |
| StreamErrors.OneCallIsRefused | internal/server/server.go:797-823 | when the loop refuses, exactly one call that has appeared bears a refused name, and its error is the run's |
| StreamErrors.ErrorsAgreeExactlyWhen | internal/server/server.go:875-878 | the two paths report the same error if and only if the declarations do not decode, or the first call ahead of the one refused early that ends up with a refused name, if any, bears the same name; always when those ahead were named |
| StreamErrors.ErrorsCanDiffer | internal/server/server.go:797-823 | three deltas on which the two paths name different calls |
| StreamRefinement.StreamedRoundTrip | internal/server/server.go:411-420 | a stored streamed response is retrieved with its own items, message first |
| StreamServer.SortByIndex | internal/server/server.go:1119-1121 | the sorted list is ascending and has exactly the given entries |
| MapOrder.AscendingIsUnique | internal/server/server.go:1114-1123 | sorting a map's values by distinct indices gives one list, whatever the iteration order |
| StreamServer.SortedToolCallBuilders | internal/server/server.go:1114-1123 | the builders come out in output order |
| StreamServer.CollectToolCalls | internal/server/server.go:1101-1112 | the calls in order of first appearance, whatever the map order |
| StreamServer.BuildOrderedStreamOutput | internal/server/server.go:1125-1168 | the completed output is the item list in order of output index |
| StreamServer.ResponseStream.HandleText | internal/server/server.go:769-780 | the text step of the specification, with its events |
| StreamServer.ResponseStream.HandleToolCall | internal/server/server.go:781-829 | the tool-call step: allocation, announcement, early checks, arguments |
| StreamServer.ResponseStream.HandleDelta | internal/server/server.go:762-838 | one iteration of the receive loop |
| StreamServer.ResponseStream.ReceiveLoop | internal/server/server.go:755-849 | the loop is the fold of the specification over the deltas, or over those received before it sees the cancelled request |
| StreamServer.ResponseStream.SendCallsDone | internal/server/server.go:929-947 | the done events of all calls in output order |
| StreamServer.ResponseStream.Finish | internal/server/server.go:853-995 | the closing events, the reported outcome and the stored conversation |
| Endings.UnstoppedRunReportsItsEnding | internal/server/server.go:853-893 | a run that its deltas never stop ends in failed with the provider's message if and only if the channel ended in that error, and in unavailable if and only if the breaker was open |
| Endings.StoppedRunNeverBlamesTheProvider | internal/server/server.go:853-893 | a run that its deltas stop reports neither |
| Endings.StreamReportsItsEnding | internal/server/server.go:853-893 | the same of the outcome |
| Endings.OpenBreakerIsReported | internal/providers/circuitbreaker.go:108-117 | in every uncut schedule behind a breaker that refuses, the streamed turn is refused as unavailable, as the synchronous one is |
| Endings.ProviderErrorIsReported | internal/providers/circuitbreaker.go:121-133 | in every uncut schedule the provider's error is reported with its text if and only if the deltas do not stop the server |
| StreamServer.HandleStreamingResponse | internal/server/server.go:681-995 | sequence numbers are 0, 1, 2, ...; an uncut run sends the specified trace and has the specified outcome; a cut one has sent the log so far and answers nothing |
| Requests.ResponseRequest.InheritMissingContext | internal/api/types.go:581-657 | every unset field takes the predecessor's value, every set one is kept |
| Requests.InheritIsAMerge | internal/api/types.go:581-657 | the merge is associative, and idempotent in the predecessor |
| Requests.EveryFieldIsMostRecent | internal/api/types.go:581-657 | over a chain of any length each inheritable field is that of the last turn that set it |
| Replay.BuildReplayState | internal/server/server.go:1373-1402 | one replay item per output item, the native message on message items only |
| Replay.ApplyReplayState | internal/server/server.go:1404-1418 | the overlay as a function of history, replay state and provider |
| Replay.ResolveItemReferences | internal/server/server.go:1292-1322 | one message per referenced position, in order of first reference; unknown ids and repeats are skipped |
| Replay.TargetsOneMore | internal/server/server.go:1297-1312 | one more reference adds at most the position it names |
| Replay.ReferencesComeInOrder | internal/server/server.go:1303-1319 | further references only add messages at the end |
| Replay.BuildOutputItemsFromMessage | internal/server/server.go:512-547 | the items of a stored message |
| Replay.BuildResponseOutput | internal/server/server.go:411-420 | retrieval shows the last message that is the assistant's |
| Conversations.PrepareTurn | internal/server/server.go:238-290 | merged request and message list of a turn: inherit, overlay, resolve, assemble |
| Histories.ContinuedTurnReads | internal/server/server.go:264-277 | in every reachable store a stored continuation reads: at most one referenced message, the whole history once and in order with only its last message possibly in the provider's own wording, the input, the reply |
| Histories.FirstTurnReads | internal/server/server.go:274-277 | a stored first turn reads: its input, the reply |
| Histories.PlainConversationsAreTranscripts | internal/server/server.go:264-277 | whatever else happens in the store, a conversation without references and native messages is input 1, reply 1, ..., input n, reply n |
| Conversations.EveryStoredConversation | internal/server/server.go:603-635 | in every reachable store each replay item points at the last message, which is the assistant's, and each stored request is what its whole chain amounts to |
| Conversations.OverlayChangesOnlyTheLast | internal/server/server.go:1404-1418 | the overlay keeps length and all earlier messages, sets the last exactly when the provider matches, and is idempotent |
| Conversations.ReferencesResolveToTheLast | internal/server/server.go:1292-1322 | any list of references resolves to the one overlaid last message if some id is known, and to nothing if none is |
| Conversations.ReturnedItemsAreKnown | internal/server/server.go:1373-1402 | each item a stored turn returned can be referred to later |
| Conversations.NativeReplayNeedsText | internal/server/server.go:1373-1418 | a native message comes back to its provider if and only if there was text or it is the plain message anyway |
| Conversations.StreamedNativeReplayNeedsText | internal/server/server.go:950-979 | the same for streamed turns, over what the deltas amount to |
| Composition.AThinkingBlockIsLost | internal/server/server.go:1373-1418 | a reply that thinks and then calls a tool is replayed to its provider without its thinking block |
| NormalizeInput.NormalizeItem | internal/api/types.go:160-234 | one step of the in-place merge keeps the recursive grouping of what is left |
| NormalizeInput.Normalize | internal/api/types.go:148-234 | the loop's messages are the recursive grouping of the items, its references their ids in order |
| InputKept.GroupingKeepsEverything | internal/api/types.go:156-234 | from the items' own fields: all content blocks and all tool calls in order, and every message that is not a run of calls, in order, with the item's role, content, call id and name |
| InputKept.ReferencesAreKept | internal/api/types.go:166-171 | the references are the ids of the reference items, in order |
| NormalizeInput.GroupingKeepsCalls | internal/api/types.go:156-234 | no tool call is lost, invented or reordered |
| NormalizeInput.GroupingKeepsResults | internal/api/types.go:156-234 | no tool result is lost, invented or reordered |
| NormalizeInput.ClosedItemsSeparate | internal/api/types.go:156-234 | an item with a closed message never merges with its neighbours |
| NormalizeInput.RunIsOneMessage | internal/api/types.go:156-234 | an uninterrupted run of function calls is one assistant message |
| NormalizeInput.FedBackResponseIsStoredMessage | internal/server/server.go:1344-1371 | the output of a text-free response, fed back, is the very message the server stored |
| TokenBucket.BucketKey.AllowRequest | internal/ratelimit/backend.go:32-70 | the answer and the stored bucket of one script run, expiry included |
| TokenBucket.TakeLowersPotential | internal/ratelimit/backend.go:43-55 | refill never raises tokens minus rate times time, and an admission lowers it by one |
| TokenBucket.TokensAreTheTightestRoom | internal/ratelimit/backend.go:39-55 | the tokens a call finds are what the tightest window ending there has left |
| TokenBucket.AdmittedExactlyWhen | internal/ratelimit/backend.go:39-60 | for any timestamps: a call is denied if and only if some window ending with it would hold more than the burst and the refill since |
| TokenBucket.BurstIsAdmitted | internal/ratelimit/backend.go:39-55 | of calls at one moment to a new key, exactly the first capacity ones pass |
| TokenBucket.WindowBound | internal/ratelimit/backend.go:39-60 | with timestamps in any order, admissions from call j to an admitted call k are at most burst plus rate times the time between |
| TokenBucket.DebtIsBounded | internal/ratelimit/backend.go:43-59 | how far behind clock skew can leave a bucket |
| TokenBucket.ExpiryIsInvisible | internal/ratelimit/backend.go:56-59 | within 2.5 s of skew the expiring key answers as one that never expires |
| TokenBucket.LiveWindowBound | internal/ratelimit/backend.go:39-60 | the window bound for the expiring key, under the same clock hypothesis |
| TokenBucket.LiveAdmittedExactlyWhen | internal/ratelimit/backend.go:39-60 | the exact admission rule for the expiring key, under the same clock hypothesis |
| TokenBucket.LargerSkewIsVisible | internal/ratelimit/backend.go:56-59 | for every larger skew a pair of calls shows the difference |
| TokenBucket.LargerSkewBreaksTheWindow | internal/ratelimit/backend.go:56-59 | for every larger skew those calls break the window bound |
| TokenBucket.SteadyCallerIsNeverDenied | internal/ratelimit/backend.go:43-55 | calls spaced by 1/rate are all admitted when burst is at least one |
| RateLimiter.RedisBackend.AcquireConcurrent | internal/ratelimit/backend.go:74-96 | counts and refreshes the expiry below the limit, changes nothing at it |
| RateLimiter.RedisBackend.ReleaseConcurrent | internal/ratelimit/backend.go:99-118 | the counter goes down by one, unguarded: it ends below zero if and only if it was not positive |
| RateLimiter.RedisBackend.CheckQuota | internal/ratelimit/backend.go:121-134 | allowed if and only if nothing is recorded under the key or something of the limit remains |
| RateLimiter.RedisBackend.RecordUsage | internal/ratelimit/backend.go:137-149 | the day's total grows by the tokens |
| RateLimiter.InFlightWithinLimitPlusLost | internal/ratelimit/ratelimit.go:97-129 | with no hypothesis on durations, in flight is at most max plus what expiries have thrown away |
| RateLimiter.SlotGrantedExactlyWhen | internal/ratelimit/backend.go:74-96 | a slot is granted if and only if fewer than max are in flight, lost ones apart |
| RateLimiter.SlotKeepsTheCounter | internal/ratelimit/backend.go:74-87 | each granted slot keeps the counter for another 300 s |
| RateLimiter.CounterIsExact | internal/ratelimit/ratelimit.go:97-129 | if handlers return within 300 s the counter is the number in flight, at most max, in every reachable timed state |
| RateLimiter.BelowZeroMeansLost | internal/ratelimit/backend.go:99-118 | in every run the counter is negative if and only if more slots were lost to expiry than are in flight; never when handlers return within 300 s |
| RateLimiter.SlowReleaseGoesBelowZero | internal/ratelimit/backend.go:99-118 | for every limit, a run with one slow request that ends at -1 |
| LimitsAttained.SlotBoundIsAttained | internal/ratelimit/ratelimit.go:97-129 | max + lost in flight is attained, for every max and any multiple of it lost |
| RateLimiter.QuotaOvershootIsBounded | internal/ratelimit/ratelimit.go:97-174 | over any interleaving, also across midnight, a day's total is at most limit - 1 + U * (max + the most that expiries lost) |
| RateLimiter.TimelyQuotaBound | internal/ratelimit/ratelimit.go:97-174 | limit - 1 + U * max when handlers return within 300 s |
| RateLimiter.QuotaGrantedExactlyWhen | internal/ratelimit/backend.go:121-134 | a request that checks today's key is admitted if and only if less than the limit has been recorded today, in any interleaving |
| RateLimiter.DaysRunFromMidnight | internal/ratelimit/ratelimit.go:183-186 | a day is 86400 s from midnight to midnight |
| LimitsAttained.QuotaBoundIsAttained | internal/ratelimit/ratelimit.go:97-174 | limit - 1 + U * max is attained, for every limit, max and U of at least one, in a run that takes no time |
| Channels.StoppedEarlyConcludes | internal/server/server.go:836-878 | a run left at done or at a refused call concludes as the whole stream does, whatever its ending |
| Relay.EveryStateIsSound | internal/providers/circuitbreaker.go:108-133 | deltas are conserved and errors ordered in every state that any schedule reaches |
| Relay.ErrorsComeLast | internal/providers/anthropic/anthropic.go:184-190 | while a delta is unsent and the request lives, no error channel is readable |
| Relay.RelayLosesNothing | internal/server/server.go:753-854 | in every schedule without disconnect the server gets the sent deltas up to where it stops, the provider's error unless it stopped first, and concludes as the whole stream does |
| Relay.DoneIsCalledOnce | internal/providers/circuitbreaker.go:124-130 | a run that cannot go on, disconnected or not, has no goroutine left, and done was called exactly once, with success iff every delta was handed over and the provider reported no error |
| Relay.DoneTellsTheScript | internal/providers/circuitbreaker.go:124-130 | with the client there to the end, done tells success iff the stream ends without error and no proper prefix of it stops the server |
| Relay.AnEarlyStopCountsAsFailure | internal/providers/circuitbreaker.go:124-130 | for every faultless stream that stops the server early, a final run that tells a failure |
| Relay.DoneThenMoreIsAFailure | internal/providers/circuitbreaker.go:124-130 | one such stream: done, and a delta after it |
| Relay.EveryRunCanFinish | internal/providers/circuitbreaker.go:108-133 | every run extends to a final one without a disconnect |
| Relay.SchedulesAreBounded | internal/providers/circuitbreaker.go:108-133 | every schedule is finite |
| Instrumentation.EveryStateIsSound | internal/observability/provider_wrapper.go:172-226 | no delta is lost, doubled or reordered inside the wrapper, in any state that any schedule reaches |
| Instrumentation.WrapperForwardsDeltas | internal/observability/provider_wrapper.go:172-226 | the reader gets the same deltas; it gets the same error exactly when the wrapper did not overlook it |
| Instrumentation.WrapperIsFaithful | internal/observability/provider_wrapper.go:122-232 | over a base that buffers its error before closing its deltas nothing is overlooked, and the reader concludes as without the wrapper |
| Instrumentation.SchedulesAreBounded | internal/observability/provider_wrapper.go:172-226 | the forwarding loop terminates: every step lowers one measure |
| Instrumentation.OnlyAnAbandonedWrapperStays | internal/observability/provider_wrapper.go:213-214 | in a final state the wrapper has returned unless it holds a delta of a stream that the server left early |
| Instrumentation.WrapperCanStayExactlyWhen | internal/observability/provider_wrapper.go:213-214 | without a disconnect some final state has a blocked wrapper if and only if a proper prefix of the stream stops the server |
| Instrumentation.DoneTellsTheScript | internal/providers/circuitbreaker.go:124-130 | behind the wrapper, done tells the stream's ending when no proper prefix stops the server, and a failure when one that lacks two deltas or more does |
| Instrumentation.TheScheduleDecides | internal/observability/provider_wrapper.go:213-214 | for every faultless stream that stops the server one delta early, a final run that tells success and one that tells failure |
| Instrumentation.SuccessIsSureExactlyWhen | internal/observability/provider_wrapper.go:172-226 | a faultless stream is told as a success in every final run without a disconnect if and only if no proper prefix stops the server |
| Instrumentation.AnyErrorCanBeLost | internal/observability/provider_wrapper.go:178-196 | over an admitting breaker, for every stream that the server reads to its end, a schedule that delivers all deltas and no error |
| Instrumentation.ALostErrorCompletesTheTurn | internal/observability/provider_wrapper.go:178-196 | the failed stream is then answered as completed if and only if its calls pass the policy |
| Instrumentation.ErrorsSurviveExactlyWhen | internal/observability/provider_wrapper.go:172-226 | every undisturbed schedule concludes as the stream does if and only if no admitting breaker stands behind, or the stream ends without error, or the server stops before its end |
| Anthropic.Extract | internal/providers/anthropic/anthropic.go:130-181 | text, tool calls and replay message of a whole reply |
| AnthropicReplay.ExtractionKeepsTheReply | internal/providers/anthropic/anthropic.go:130-181 | id, model, usage and text are the reply's, and its replay message reads back to every text, thinking and redacted block and every tool, in order |
| AnthropicReplay.ReplayDeterminesTheReply | internal/providers/anthropic/anthropic.go:130-167 | equal replay messages come from the same blocks and tools |
| Anthropic.EventStream.Handle | internal/providers/anthropic/anthropic.go:265-353 | one event of the stream, on both maps and the deltas handed over |
| Anthropic.EventStream.BuildStreamReplayMessage | internal/providers/anthropic/anthropic.go:384-412 | the blocks and calls in order of position, whatever the map order; nothing when both are empty |
| Anthropic.GenerateStream | internal/providers/anthropic/anthropic.go:252-379 | the deltas handed over when the stream ends well, when it ends in an error, and when the request is cancelled after any number of sends; an error is reported in exactly the last two cases |
| AnthropicStream.AccumulationSpells | internal/providers/anthropic/anthropic.go:272-352 | the maps hold at each position exactly the block that the events spell out there |
| AnthropicReplay.AccumulationReadsBack | internal/providers/anthropic/anthropic.go:272-352 | the maps read back, position by position, to what the events spell |
| AnthropicReplay.StreamKeepsTheReply | internal/providers/anthropic/anthropic.go:384-412 | the replay message of a stream reads back to every block and tool of the reply that its events encode |
| AnthropicStream.ReplayMessageIsTheSame | internal/providers/anthropic/anthropic.go:384-412 | for every interleaving the streamed replay message is the extracted one |
| AnthropicStream.ReplayMessageNeedsInputs | internal/providers/anthropic/anthropic.go:338-345 | for events that agree with the reply but for tool inputs, the replay messages are equal if and only if each tool's pieces spell its input |
| AnthropicStream.AToolWithoutPiecesDiffers | internal/providers/anthropic/anthropic.go:338-345 | one tool with input {} and no JSON piece: the replay messages differ |
| AnthropicStream.TextNeedsBlockOrder | internal/providers/anthropic/anthropic.go:318-328 | the same fact about the text pieces alone: joined as they come they are the text by block, for all pieces, if and only if they never return to an earlier block |
| AnthropicStream.EmittedTextNeedsBlockOrder | internal/providers/anthropic/anthropic.go:318-328 | the emitted text is the reply's, for every stream of a shape, if and only if the shape never returns to an earlier block |
| AnthropicStream.AGarbledStream | internal/providers/anthropic/anthropic.go:318-328 | for every shape that returns to an earlier block, a stream whose emitted text is not the reply's |
| AnthropicStream.EmittedTextNeedsEmptyOpenings | internal/providers/anthropic/anthropic.go:296-301 | with text pieces in block order, the emitted text is the reply's if and only if every text block opens empty |
| AnthropicStream.AnOpeningTextIsNotEmitted | internal/providers/anthropic/anthropic.go:296-301 | one text block that opens with its text: nothing is emitted |
| AnthropicStream.TextIsTheSame | internal/providers/anthropic/anthropic.go:318-328 | then the emitted text is the extracted text |
| AnthropicStream.CallsAreTheSame | internal/providers/anthropic/anthropic.go:277-295 | with tool blocks opened in order, the emitted call deltas amount to the extracted calls, however arguments interleave |
| AnthropicStream.CallsNeedOpeningOrder | internal/providers/anthropic/anthropic.go:277-295 | with distinct tool ids that order is also needed |
| AnthropicStream.ToolsOpenedBackwardsDiffer | internal/providers/anthropic/anthropic.go:277-295 | two tool blocks that open at 1 and then at 0: the calls differ |
| AnthropicStream.StreamAmountsToTheReply | internal/providers/anthropic/anthropic.go:252-379 | the emitted deltas amount to the whole result that Generate extracts from the same reply |
| Composition.RelayedReplyAnswersLikeSync | internal/server/server.go:681-995 | in every uncut schedule of provider, breaker and server, the streamed reply is refused, answered and stored as the synchronous turn on the same reply |
| Composition.ForwardedReplyAnswersLikeSync | internal/server/server.go:681-995 | the same with the metrics wrapper outside the breaker, the gateway's own arrangement |
| UsageStore.NothingIsLost | internal/usage/store.go:64-129 | accepted events are flushed ++ batch ++ buffer in every schedule; only the final drain's batch may exceed 100 |
| UsageStore.AcceptedExactlyWhen | internal/usage/store.go:66-80 | an event is accepted if and only if fewer events than the buffer holds have been accepted and not yet received |
| UsageStore.TickHandsOver | internal/usage/store.go:108-112 | a tick hands over whatever has been received |
| UsageStore.CloseHandsOverEverything | internal/usage/store.go:83-129 | when Close returns with no Record beside it, every accepted event was handed over exactly once, in order |
| UsageStore.LateRecordsAreLost | internal/usage/store.go:66-80 | once the goroutine has returned nothing more is handed over, and what is in the buffer is what was lost |
| UsageStore.ARecordCanBeLost | internal/usage/store.go:66-87 | for every store and event, a run in which the event is accepted and never handed over |
| UsageStore.AllHandedOverExactlyWhen | internal/usage/store.go:83-129 | every accepted event is handed over if and only if no Record comes after the final flush |
| UsageStore.Store.Record | internal/usage/store.go:66-80 | appends when there is room and drops otherwise |
| UsageStore.Store.OnEvent | internal/usage/store.go:94-106 | one receive, with a flush at a hundred |
| UsageStore.Store.DrainOne | internal/usage/store.go:116-126 | one turn of the drain: a receive, or the final flush when the buffer is empty |
| UsageStore.Store.DrainBesideRecorders | internal/usage/store.go:116-126 | with events coming in between turns, all that was accepted until the loop ends is handed over, in order |
| UsageStore.Store.DrainAll | internal/usage/store.go:114-126 | without recorders, batch and buffer end up handed over, in order |
| Migrations.Database.Migrate | internal/conversation/migrate.go:121-168 | the loop over transactions, cut anywhere |
| Migrations.RunsLeaveAPrefix | internal/conversation/migrate.go:121-168 | after any runs, cut or failed anywhere, rows and contents are those of one prefix, files that repeat a version counting as nothing |
| Migrations.AllKeptWhenDistinct | internal/conversation/migrate.go:77-84 | every file counts if and only if versions are distinct |
| Migrations.RunsAreRestartable | internal/conversation/migrate.go:121-168 | with distinct versions the contents are the fold of a prefix, and of all files after a completed run |
| Migrations.UncutRunCompletes | internal/conversation/migrate.go:121-168 | on distinct versions whose SQL applies, one uncut run applies whatever earlier runs left over |
| Migrations.CompletionReportsTheLastVersion | internal/conversation/migrate.go:137-168 | a completed run reports the last file's version |
| Migrations.CompletionRecordsAllExactlyWhen | internal/conversation/migrate.go:121-168 | a completed run has recorded every file's version if and only if versions are distinct |
| Migrations.ARepeatedVersionIsSkipped | internal/conversation/migrate.go:137-165 | of two files with one version the second fails once and is then skipped, its SQL never applied |
| Migrations.CheckPassesOnlyWhenComplete | internal/conversation/migrate.go:170-183 | the start-up check passes if and only if every file has been applied |
| Jwks.Middleware.RefreshIfCooledDown | internal/auth/auth.go:392-403 | a fetch only after the cooldown, and the state it leaves |
| Jwks.Middleware.CheckStale | internal/auth/auth.go:309-323 | a token is let on only over keys within the limit, which a forced refresh may have just restored |
| Jwks.LetOnOverFreshKeys | internal/auth/auth.go:309-323 | beside any other calls, a request that passes the check works, then and at every later moment, on keys fetched at most the limit before it asked |
| Jwks.RefreshesAreLimited | internal/auth/auth.go:392-403 | n on-demand refreshes in a window w satisfy (n - 1) * 30 s <= w, forced and periodic ones notwithstanding |
| Jwks.CooledDownRefreshHappens | internal/auth/auth.go:392-403 | an on-demand refresh goes ahead when every guarded call before it ended 30 s ago, and a usable answer is taken |
| Jwks.HotRefreshIsSkipped | internal/auth/auth.go:396-398 | one within 30 s of a forced refresh does nothing |
| Jwks.UsableAnswersAreTaken | internal/auth/auth.go:407-414 | forced and periodic refreshes always take a usable answer |
| Jwks.BackoffDoubles | internal/auth/auth.go:583-606 | after k periodic failures in a row the wait is min(5 * 2^(k-1), 30) minutes |
| Jwks.KeysStay | internal/auth/auth.go:486-495 | the key set never becomes empty, and each failing call keeps keys and fetch time, whatever came before |

## Left out

- HTTP handling, request validation, JSON and SSE framing, logging, tracing and metrics values.
- Echoed response fields (timestamps, instructions, limits and the like), annotations, and content-block fields other than
  kind, text, signature, data and encrypted content; `contentIndex` is always 0 and is not modelled.
- The difference between a nil and an empty raw JSON value or slice.
- Ownership and tenant checks on stored conversations, listing, time to live, and the SQL and Redis stores behind them.
- Go pointers to stream builders: the map holds builder values that each step stores back, so aliasing between the map and a
  local pointer is not captured. The same holds for the pointers in the two Anthropic maps and the reused batch slice.
- The middleware's request-rate check in `RateLimiter`: the token bucket stands alone in `TokenBucket`.
- TokenBucket.WindowBound: speaks of a key that does not expire; `TokenBucket.LiveWindowBound` is the bound for the expiring
  key, within 2.5 s of clock skew. A negative burst and floating-point rounding are not modelled.
- Backend errors: the fail-open paths of the limiter and the fallback branch of `ReleaseConcurrent`.
- gobreaker's own counting and state changes: only that an admitted stream is answered by one `done` call.
- The relay of `Generate` through the breaker, which is straight-line.
- Provider-side converters, document media types and model selection; the provider SDKs. A provider that fails while the
  request is cancelled is modelled as ending in the cancellation error.
- UsageStore: the database transaction inside `insertBatch`, whose failures are logged and dropped there.
- Migrations: reading and parsing the embedded files; a transaction is atomic.
- Jwks.Middleware.CheckStale: one request alone; the age is read and the forced refresh begins at the same time.
  `Jwks.LetOnOverFreshKeys` states the check beside other requests.
- UsageStore.Store.DrainAll: no recorder runs beside it; `UsageStore.Store.DrainBesideRecorders` is the loop beside recorders.
- LimitsAttained.QuotaBoundIsAttained: needs U of at least one token; with U of zero nothing can be recorded.
- Token verification, key parsing, OIDC login, sessions, cookies, roles, encryption at rest, the admin interface, the web
  front end, deployment files and scripts.
