# AstreoGateway in Dafny

AstreoGateway is an OpenAI-compatible gateway in front of several LLM providers. This project models
the parts of it that carry state, loops and arithmetic, and proves what they are for:

- **The failover run** (`Failover`, `FailoverTheorems`, `FailoverRecord`, `FailoverState`, over
  `KeyPool`, `Discovery`, `Routing`, `World`, `Proxy`). A request is a state machine over the tried
  set, the client's writer, the outcome record, the key cooldowns and the runtime-stale marks. The
  upstreams answer arbitrarily, and between any two reads other goroutines may change the tables,
  reload the pool, cool keys, step the discovery cache and let time pass: a *script* gives all of
  that. The theorems hold for every script, but for four that name the steps they rule out: pool
  reloads after the cooling answer (`CooledKeysRest`), a refresh after the 404 (`MissingTurnsStale`),
  other hands on the cache (`MarksAreMissing`), or on tables and cache (`RetriesFollowListOrder`).
  Chat and embeddings share one model with a mode.
- **The stream translators and the usage tap** (`Sse`, `AnthropicStream`, `GeminiStream`, `UsageTap`,
  `StreamTokens`), and the square that connects them with the whole-response translators
  (`AnthropicSquare`, `GeminiSquare`): what a client assembles of a stream against what it gets of
  the same answer in one piece.
- **Request translation** (`ChatRequest`, `AnthropicRequest`, `GeminiRequest`): batching of tool
  results, system text, tool names by id, and the response-to-history round trip.
- **The request log** (`LogStore`, `LogStats`): the ring as the last `cap` entries, tiling pages,
  conserved totals, bucket times, the 95th percentile.
- **Slugs and alias import** (`Slug`, `AliasImport`).

Code that changes state is written as classes and methods with loops; each method is proved against
a function of the state before it, and the theorems are lemmas about these functions. `World.World`
holds what all requests share; `World.World.Interfere` is what others do to it at one moment.

## Where the code and its promises part

Each of these is kept as the code has it, with the exact condition proved and an input that shows it.

- After the last target of an alias fails without a status (transport error), the chat loop writes a
  head with code 0 (internal/proxy/proxy.go:295-297): `FailoverRecord.ZeroHeadIff`,
  `FailoverRecord.ZeroHeadHappens`. The embeddings loop writes 502.
- A 200 answer whose body cannot be read is retried, and delivered as an empty 200 when no target is
  left: `FailoverRecord.FailureToldAs200Iff`, `FailoverRecord.EmptySuccessHappens`. When the recorded
  status is the one on the wire: `FailoverRecord.RequestHeadMatchesRecordIff`.
- A first 404 on a provider that was never discovered makes every model of it stale, while
  docs/decisions.md:104-106 speaks of that target alone: `Discovery.MarkTouchesOnePairIff`,
  `Discovery.FirstMarkSpreads`.
- A stale pair is kept out of a selection only through the stored alias row that the stale report
  reads; a request that holds an older copy of its alias may still take it, and any request may when
  the alias query fails: `Routing.StaleIsExcludedIff`, `Routing.StaleTakenHappens`.
- The tap notes a write whether or not it failed (internal/proxy/outcome.go:72-73): a connection that
  breaks on the closing usage chunk leaves tokens in the log that its client was never told:
  `StreamTokens.TapAgreesWithClientIff`, `StreamTokens.LostUsageIsRecorded`.
- Anthropic streams and whole responses differ on an absent id, stop reason or tool input, and on
  counts that the closing usage gives otherwise or leaves out:
  `AnthropicSquare.StreamEqualsResponseIff`, `AnthropicSquare.AbsentInputDiffers`. `[DONE]` is sent
  once for each `message_stop` or `error` event, and so never on an early end:
  `AnthropicSquare.AnyStream`.
- Gemini streams and whole responses differ on call ids once another part precedes a call, on absent
  arguments, and on the finish reason when call and reason come in different chunks:
  `GeminiSquare.StreamEqualsResponseIff`, `GeminiSquare.TextBeforeCallDiffers`.
- A tool input that is not valid JSON does not survive being sent back as history:
  `AnthropicRequest.HistoryRoundTripIff`, `AnthropicRequest.HistoryReturnsIff`,
  `AnthropicRequest.InvalidInputIsLost`.
- A suffixed slug may exceed the 64 characters `ValidSlug` allows: `Slug.AllocatedValidIff`,
  `Slug.LongCandidateHappens`.
- A bucket does not hold its entries of negative time, multiples of its size apart:
  `LogStats.BucketHoldsIff`, `LogStats.NegativeTimeHappens`. The window of a real clock holds no such
  entry.

## Model

| member | source | states |
|---|---|---|
| KeyPool.Pool.Load | internal/keypool/keypool.go:32-54 | keys of listed providers are replaced and their cooldowns dropped; a failed provider query changes nothing, a failed key query leaves that provider as it was |
| KeyPool.Pool.Get | internal/keypool/keypool.go:56-75 | the scan gives the pool's first usable key |
| KeyPool.Pool.MarkCooldown | internal/keypool/keypool.go:77-90 | one key of one provider is set to cool until now + d, as `MarkedAlone` says |
| KeyPool.MarkedAlone | internal/keypool/keypool.go:77-90 | the first state under the id cools until then, and every other state of every provider is what it was |
| KeyPool.UsableIsFirstReady | internal/keypool/keypool.go:56-75 | the key handed out is the first enabled non-cooling one in stored order; none is handed out exactly when there is none |
| KeyPool.CooledEffect | internal/keypool/keypool.go:77-90 | marking touches no other provider, keeps ids and order, and never ends another cooldown earlier than the new one |
| KeyPool.CoolingNotUsable | internal/keypool/keypool.go:56-90 | a cooling key is not handed out before its time |
| KeyPool.OthersStayUsable | internal/keypool/keypool.go:56-90 | while a key cools, the first ready key of another id is handed out, and none only when none is ready; afterwards it is ready again if enabled |
| KeyPool.LoadedEntry | internal/keypool/keypool.go:32-54 | after a load a listed provider holds exactly its enabled keys, in stored order and none cooling; an unlisted or unreadable one holds what it held |
| Store.TargetKeyInjective | internal/routing/routing.go:63-66 | the string key of a target determines provider and model, provider ids holding no colon |
| Store.ProviderMapById | internal/routing/routing.go:185-195 | the provider map has exactly the ids of the table, each with a row of its own id |
| Discovery.Cache.RefreshProvider | internal/discovery/discovery.go:280-337 | a refresh succeeds exactly with an enabled provider, a key and an answer; then models, time and marks are renewed; a failed one keeps models and time; a missing or disabled provider leaves the cache alone |
| Discovery.Cache.MarkRuntimeStale | internal/discovery/discovery.go:198-205 | one pair is marked, the rest of the cache unchanged |
| Discovery.Cache.RemoveProvider | internal/discovery/discovery.go:192-196 | the provider's entry goes, its marks stay |
| Discovery.Cache.ClearRuntimeStaleFor | internal/discovery/discovery.go:221-225 | the provider's marks are emptied, while it stays known as marked |
| Discovery.Cache.InjectRuntimeStale | internal/discovery/discovery.go:207-219 | the known models come to reflect the marks, with a table for providers known by marks alone |
| Discovery.Cache.KnownByProvider | internal/discovery/discovery.go:239-253 | the locked section yields exactly the models the cache vouches for |
| Discovery.StaleTargets | internal/discovery/discovery.go:255-278 | the report lists the stale targets of the aliases read, in order, and nothing when the alias query fails |
| Discovery.AllStaleIsExact | internal/discovery/discovery.go:239-278 | a target is reported if and only if some alias lists it and its provider is known and the model unlisted or marked |
| Discovery.EntriesRefineHistory | internal/discovery/discovery.go:280-337 | after any interleaving of steps, models and time are those of the last successful refresh since the last removal |
| Discovery.MarksRefineHistory | internal/discovery/discovery.go:198-225 | after any interleaving, a pair is marked if and only if it was marked since the last successful refresh of its provider |
| Discovery.StaleIffHistory | internal/discovery/discovery.go:198-278 | when a pair is stale, in terms of the history alone |
| Discovery.MarkTouchesOnePairIff | internal/discovery/discovery.go:198-219 | a 404 makes stale the one pair that drew it if and only if its provider has been discovered, or marked before |
| Discovery.FirstMarkSpreads | internal/discovery/discovery.go:207-219 | a first 404 that makes another model stale |
| Discovery.MarkLasts | internal/discovery/discovery.go:198-225 | a marked pair stays stale through every step but a successful refresh of its provider |
| Routing.Selector.Resolve | internal/routing/routing.go:49-54 | a directive with a colon is direct, any other an alias; result, positions and world are those of the specification |
| Routing.DirectiveSplits | internal/routing/routing.go:49-54 | provider before the first colon, model after it; an alias name without one |
| Routing.Selector.ResolveDirect | internal/routing/routing.go:79-112 | by id, else slug, else legacy name; disabled, unregistered and keyless providers are refused, in that order |
| Routing.Selector.ResolveAlias | internal/routing/routing.go:114-157 | the active targets are scanned, one is selected, and its provider's key taken, with others acting between the reads |
| Routing.Selector.SelectTarget | internal/routing/routing.go:159-172 | the chosen target is one of the active, at the place `AliasResolutionStands` gives it, and round-robin alone advances its alias's position |
| Routing.Selector.BuildStaleSet | internal/routing/routing.go:174-183 | the keys of this alias's stale targets, the cache and the alias table being read one after the other |
| Routing.Selector.LoadProviderMap | internal/routing/routing.go:185-195 | the provider table by id, or failure |
| Routing.Selector.NextFailoverTarget | internal/routing/routing.go:56-77 | the first untried target of the scan with its provider, or why there is none |
| Routing.FirstUntriedIsFirst | internal/routing/routing.go:62-76 | the next target is the first in list order that is untried, not stale and of an enabled provider; none is left exactly when every target is tried or ineligible |
| Routing.ActiveAreEligible | internal/routing/routing.go:129-140 | the active targets are exactly the eligible ones of the alias |
| Routing.EligibleIff | internal/routing/routing.go:123-140 | a target is out of a selection if and only if it has no enabled provider or a row stored for the alias lists its key as stale; a failed alias query makes nothing stale |
| Routing.StaleIsExcluded | internal/routing/routing.go:123-140 | a stale pair is ineligible for an alias whose stored row still lists it |
| Routing.StaleIsExcludedIff | internal/routing/routing.go:123-140 | a stale target of an enabled provider is kept out if and only if the alias query succeeds and a row stored for the alias still lists it |
| Routing.StaleTakenHappens | internal/routing/routing.go:56-76 | a stale pair that failover takes again: the stored row no longer lists it, or cannot be read |
| Routing.IneligibleIsUnavailable | internal/routing/routing.go:56-76 | a target out of the running is stale itself, or its provider is missing, disabled or unreadable |
| Routing.StaleNeverSelected | internal/routing/routing.go:56-157 | neither first choice nor failover takes such a pair |
| Routing.AliasResolutionIsSound | internal/routing/routing.go:114-157 | a resolved alias is enabled and its target its own, not stale and of an enabled provider, whose key is usable at that moment; it is refused for want of targets exactly when none is eligible |
| Routing.AliasResolutionStands | internal/routing/routing.go:114-172 | the target resolved is, among the eligible in list order, the first for failover and priority, the one at the alias's position modulo their number for round_robin, and the one drawn for random |
| Routing.DirectResolutionIsSound | internal/routing/routing.go:79-112 | id goes before slug before name; only an enabled provider of a known protocol with a usable key is answered for |
| Routing.DirectRefusalsHaveReasons | internal/routing/routing.go:79-112 | a direct reference is refused only when it names no provider, or one disabled, of an unknown protocol or without a usable key |
| RoundRobin.PicksRotate | internal/routing/routing.go:159-172 | the selections of one alias take positions p, p + 1, ... modulo n, whatever other aliases select in between |
| RoundRobin.RoundRobinFair | internal/routing/routing.go:159-172 | any n consecutive selections hit each of n targets once, and over any run two counts differ by at most one |
| UsageTap.UsageCaptureWriter.Write | internal/proxy/outcome.go:71-100 | the client gets what its connection takes of the bytes, and the error of the write is passed on; buffer and tokens are those of feeding all of them to the line parser, taken or not |
| UsageTap.ChunkingInvariance | internal/proxy/outcome.go:71-100 | buffer and tokens depend on the concatenated bytes alone, however they are cut into writes |
| UsageTap.BufferIsTail | internal/proxy/outcome.go:71-100 | the buffer is exactly what follows the last newline |
| UsageTap.LineIsNoted | internal/proxy/outcome.go:75-98 | a line counts exactly when it is data, neither empty nor [DONE], with usage; any other line, and part of one, leaves the tokens alone |
| UsageTap.TapRecordsLastUsage | internal/proxy/outcome.go:71-100 | on translated frames, cut anyhow, the tokens are those of the last frame carrying usage |
| Proxy.Outcome.AppendAttempt | internal/proxy/outcome.go:176-203 | one entry is added and the outcome takes over its status, class and tokens |
| Proxy.Outcome.FinalizeStream | internal/proxy/outcome.go:207-222 | status and class of outcome and last entry become those of the finished stream |
| Proxy.StatusesDecide | internal/proxy/proxy.go:358-380 | which statuses rest the key, make the pair stale, and are worth another target; a 200 whose body fails is retried too |
| Failover.Gateway.Exchange | internal/proxy/proxy.go:148-159 | the call's effect on the shared world: the key is cooled when the answer is 429 or 5xx |
| Failover.Gateway.CopyStream | internal/proxy/proxy.go:166-174 | one head 200 and then the stream's bytes, up to a write that fails, of which the client gets what was taken and the tap all |
| Failover.Gateway.CopyLost | internal/proxy/outcome.go:71-73 | the failing write: the client gets what was taken of it, the tap all |
| Failover.Gateway.Forward | internal/proxy/proxy.go:120-187 | one upstream call: its result, what it sent to the client, the tokens tapped, the world after it; `FailoverRecord.RequestIsAnswered` says what the client gets of it |
| Failover.Gateway.ForwardLogged | internal/proxy/proxy.go:251-269 | a call together with its entry in the outcome |
| Failover.Gateway.WriteResult | internal/proxy/proxy.go:189-202 | the head and body sent for a result that was not streamed; a zero status goes out as it is in chat, as 502 in embeddings |
| Failover.Gateway.MarkSoftStale | internal/proxy/proxy.go:352-356 | the pair is marked when the class is model_missing and a cache is set, and otherwise nothing changes |
| Failover.Gateway.ForwardOnce | internal/proxy/proxy.go:213-240 | a request without an alias is one call and one answer |
| Failover.Gateway.AttemptTarget | internal/proxy/proxy.go:316-348 | one attempt ends the run with an answer, or leaves the client untouched and the run still to continue |
| Failover.Gateway.Choose | internal/proxy/proxy.go:294-314 | the next target, its key and its body, or why it is passed over |
| Failover.Gateway.Round | internal/proxy/proxy.go:293-349 | each round ends the run or shrinks the set of untried targets |
| Failover.Gateway.Retry | internal/proxy/proxy.go:293-349 | the retry loop ends, in the state, record and response that the run's specification gives |
| Failover.Gateway.AttemptAndRetry | internal/proxy/proxy.go:243-350 | the first attempt and all retries make the specified run |
| Failover.Gateway.ForwardWithRetry | internal/proxy/proxy.go:212-350 | an unreadable or vanished alias gives a single call, any other the alias's run |
| Failover.Gateway.Serve | internal/proxy/proxy.go:66-118 | a request, from its directive to its last byte, ends in the world, outcome and trace of its specified run |
| Failover.Gateway.ServeResolved | internal/proxy/proxy.go:78-118 | from the resolution on: a body that is no object is refused before any call, any other ends in its specified run |
| Failover.MoveFacts | internal/proxy/proxy.go:293-314 | a round takes the first untried eligible target, uses a key usable at that moment, and stops only when no such target is left |
| FailoverTheorems.NoTargetTwice | internal/proxy/proxy.go:243-349 | every run ends with at most one attempt more than the alias has targets, no provider-model pair is treated twice, the first included, and the tried set is what was tried |
| FailoverTheorems.OneResponse | internal/proxy/proxy.go:243-349 | exactly one head is sent, first; a call that wrote is the last and all the client sees; every other left the client untouched, and the last result is what is then sent |
| FailoverTheorems.OneResponsePerRequest | internal/proxy/proxy.go:66-118 | the same of any request, direct or alias, chat or embeddings, resolved or refused |
| FailoverTheorems.NoPrematureSurrender | internal/proxy/proxy.go:293-310 | a run gives up if and only if every call failed retryably; in its last round, which begins where its last try ended, each target is itself stale, or its provider missing, disabled or unreadable, or it was tried (ids free of colons), and each tried one was called and failed or had no usable key; a rewrite failure is never the reason |
| FailoverTheorems.BodiesAskForTheirTarget | internal/proxy/proxy.go:308-323 | every retry sends its own target's model and the client's request otherwise, stream options apart |
| FailoverTheorems.EveryCallAsks | internal/proxy/proxy.go:308-314 | every call asks its target's model of the client's request, the first one the model resolved; an OpenAI stream is asked for usage with all other options kept |
| FailoverTheorems.PreparedBody | internal/proxy/proxy.go:406-417 | rewriting never fails on an object and changes nothing but the model and stream options |
| FailoverRecord.RecordAgrees | internal/proxy/outcome.go:160-222 | one log entry per upstream call in call order, status and class of the last, all earlier ones retryable, tokens only from the delivered answer |
| FailoverRecord.RecordSays | internal/proxy/outcome.go:176-203 | the record from the replies alone: an entry for each call in order with provider, model, key and class, the last class, and the tokens of the answer that ended the run |
| FailoverRecord.HeadMatchesRecordIff | internal/proxy/outcome.go:160-174 | the recorded status is the one sent exactly unless the last call left no status in chat, had its stream cut, or, of embeddings, timed out or had an unreadable body |
| FailoverRecord.RequestHeadMatchesRecordIff | internal/proxy/outcome.go:112-123 | of any request: which inputs are refused, calling nobody, with head and record in agreement; and of the others, exactly which answers to the last call make the recorded status differ from the one sent |
| FailoverRecord.ClientIsSent | internal/proxy/proxy.go:128-202 | what an alias's run sends: a converted 200 with its body, a stream's pieces as they arrived after one head 200, another status with its text, and a failure as its status with nothing |
| FailoverRecord.SingleClientIsSent | internal/proxy/proxy.go:213-240 | the same of a single call, a failure being told as a 502 with its message |
| FailoverRecord.RequestIsAnswered | internal/proxy/proxy.go:66-118 | what any request has its client sent, head and body, in terms of its resolution, its body and the reply to its last call |
| FailoverRecord.ZeroHeadIff | internal/proxy/proxy.go:295-297 | in chat a head of code 0 is sent exactly when the last call left no status |
| FailoverRecord.ZeroHeadHappens | internal/proxy/proxy.go:295-297 | a run that sends a head of code 0 and records 502 |
| FailoverRecord.FailureToldAs200Iff | internal/proxy/proxy.go:176-202 | a failed call is told to the client under a 200 exactly when the last one had an unreadable 200 body, or its stream was cut; without streaming it is then an empty 200 |
| FailoverRecord.EmptySuccessHappens | internal/proxy/proxy.go:176-179 | a run that delivers an unreadable 200 as an empty 200 |
| FailoverState.CooledKeysRest | internal/proxy/proxy.go:157-159 | a key answered 429 or 5xx is not used again in the run before its cooldown ends, for no model of its provider, unless the pool is reloaded after that answer |
| FailoverState.MissingTurnsStale | internal/proxy/proxy.go:352-356 | a pair that drew a 404 is stale when the run ends and from then on, through everything but a successful refresh after that 404 |
| FailoverState.MissingNotSelectedAgain | internal/routing/routing.go:56-157 | no later request takes that pair, as first choice or in failover, until such a refresh |
| FailoverState.MarksAreMissing | internal/proxy/proxy.go:338-340 | with no other hand on the cache, the pairs a run marks are exactly those whose call was answered 404 |
| FailoverState.RetriesFollowListOrder | internal/proxy/proxy.go:293-349 | while nobody else changes tables or cache, the targets after the first come in strictly increasing list order |
| Sse.FramingRoundTrip | internal/protocol/anthropic/stream.go:55-71 | the frames a translator prints, read back by the scanner and flusher, give their payloads in order |
| Sse.OtherLinesIgnored | internal/protocol/anthropic/stream.go:222-226 | a line that is neither blank nor data changes nothing, wherever it stands |
| Sse.BlankLineSplits | internal/protocol/anthropic/stream.go:214-221 | a blank line ends an event, and what comes before and after is read apart |
| Sse.EndIsBlankLine | internal/protocol/anthropic/stream.go:227-229 | the end of the input ends the last event |
| Sse.DataLinesJoin | internal/protocol/anthropic/stream.go:55-63 | several data lines make one payload, their trimmed data joined by line feeds |
| Sse.EachPayloadIsAnEvent | internal/protocol/anthropic/stream.go:59-70 | an empty payload, [DONE] and bad JSON are passed over wherever they stand, and any other payload is one event at its place |
| Sse.RawPayloads | internal/protocol/anthropic/stream.go:214-229 | of a stream with event names, ids and comments and either line end, what is read is the JSON of its events in order |
| Sse.LineRuns | internal/protocol/anthropic/stream.go:214-229 | what one more line adds to events, frames and pending data, and what a broken connection has then taken |
| StreamTokens.LastUsageIsTold | internal/proxy/outcome.go:71-100 | the last usage among the frames is the one the assembling client holds |
| StreamTokens.TapAgreesWithClient | internal/proxy/outcome.go:71-100 | the tokens recorded of a stream that all arrived are those its client was told, zero when it was told none |
| StreamTokens.TapAgreesWithClientIff | internal/proxy/outcome.go:71-100 | of a connection that breaks after any number of frames, the tokens recorded are those its client was told exactly when it took the whole stream, or the frame it broke on carries no usage or the one told before |
| StreamTokens.LostUsageIsRecorded | internal/proxy/outcome.go:72-73 | a stream that breaks on its closing chunk, whose usage is recorded all the same |
| AnthropicResponse.AnthropicToOpenAI | internal/protocol/anthropic/response.go:10-62 | the loop yields the joined text and the tool calls in order, with defaults for absent inputs and stop reasons |
| AnthropicResponse.WholeAnswer | internal/protocol/anthropic/response.go:10-78 | id, text of all blocks in order, finish reason by stop reason, and counts of a whole answer |
| AnthropicResponse.JoinText | internal/protocol/anthropic/response.go:80-89 | concatenation in order |
| AnthropicStream.Translation.Handle | internal/protocol/anthropic/stream.go:71-212 | one event makes the specified step of id, tool map, finish reason and usage, and writes its frames until the connection breaks |
| AnthropicStream.Translation.HandleDelta | internal/protocol/anthropic/stream.go:119-159 | a piece of text or input is sent at its block's tool index, a new one where the block has none |
| AnthropicStream.Translation.Amend | internal/protocol/anthropic/stream.go:165-174 | closing usage renews the completion count, and the prompt count only where there was none |
| AnthropicStream.Translation.FlushEvent | internal/protocol/anthropic/stream.go:55-71 | the pending data lines become at most one event, and bad JSON none |
| AnthropicStream.Translation.ReadLines | internal/protocol/anthropic/stream.go:214-226 | the scanner loop has run the step function over exactly the events completed |
| AnthropicStream.Translate | internal/protocol/anthropic/stream.go:15-230 | the client gets all that the events translate to, or the prefix its connection takes; success means all, and no scanner error |
| AnthropicSquare.StreamEqualsResponseIff | internal/protocol/anthropic/stream.go:71-192 | for every response, every cutting into deltas and any noise between them, with closing usage or without, the assembled stream equals the whole translation if and only if id, stop reason and all tool inputs are present, usage is asked for, and the counts agree: no prompt count of 0 is amended at the end, or, without closing usage, the opening completion count is the whole |
| AnthropicSquare.StreamedBytesEqualResponseIff | internal/protocol/anthropic/stream.go:15-230 | the same from the bytes of the upstream stream |
| AnthropicSquare.StreamedEventsEqualResponseIff | internal/protocol/anthropic/stream.go:15-230 | the same from bytes with event names, ids and comments among the lines, and either line end |
| AnthropicSquare.AbsentInputDiffers | internal/protocol/anthropic/response.go:21-34 | a stream whose one tool call has no input, which the whole response gives as {} |
| AnthropicSquare.NoiseIsSilent | internal/protocol/anthropic/stream.go:71-212 | events other than those of a message change nothing the client assembles |
| AnthropicSquare.CallsAgreeIff | internal/protocol/anthropic/response.go:21-34 | streamed and whole tool calls agree exactly when every call has an input |
| AnthropicSquare.AnyStream | internal/protocol/anthropic/stream.go:71-212 | on any events, the block-to-tool map stays injective with values below the next index, tool indices have no gaps, and [DONE] is sent once per message_stop or error |
| AnthropicSquare.StartsAndErrorsAreTold | internal/protocol/anthropic/stream.go:72-90 | message_start sends the role under the message's id; an error event sends its message and [DONE] |
| GeminiResponse.GeminiToOpenAI | internal/protocol/gemini/response.go:10-81 | text, tool calls named by part index, finish reason and usage of a whole response |
| GeminiResponse.WholeAnswer | internal/protocol/gemini/response.go:10-96 | text of all parts in order, one call for each part with one, named by its position, finish reason by reason and calls, and counts of a whole answer |
| GeminiStream.Translation.Handle | internal/protocol/gemini/stream.go:72-164 | one chunk makes the specified step and writes the role once, then its parts' frames, until the connection breaks |
| GeminiStream.Translation.WriteRest | internal/protocol/gemini/stream.go:87-164 | usage and finish reason are noted, then the parts sent |
| GeminiStream.Translation.WriteParts | internal/protocol/gemini/stream.go:119-163 | a chunk's parts are sent in order, calls at consecutive indices |
| GeminiStream.Translation.Note | internal/protocol/gemini/stream.go:87-113 | a chunk's usage and finish reason replace the earlier ones, a call in the same chunk making the reason tool_calls |
| GeminiStream.Translation.WriteClosing | internal/protocol/gemini/stream.go:186-206 | the finish chunk, then [DONE] |
| GeminiStream.Translate | internal/protocol/gemini/stream.go:15-207 | the client gets the whole translation or the prefix its connection takes; a scanner error leaves out the closing frames |
| GeminiSquare.RunFlattens | internal/protocol/gemini/stream.go:72-164 | the frames of a run are one role chunk and the frames of all parts in a row, however chunks divide them |
| GeminiSquare.StreamShape | internal/protocol/gemini/stream.go:45-207 | every stream is at most one role chunk, then deltas, then exactly one finish chunk, then exactly one [DONE]; tool indices are 0, 1, 2, ... |
| GeminiSquare.StreamEqualsResponseIff | internal/protocol/gemini/stream.go:45-207 | text, id and call names always agree with the whole response; all agrees if and only if every call has arguments, no other part precedes a call, the finish reasons agree, and usage is asked for or absent |
| GeminiSquare.StreamedEventsEqualResponseIff | internal/protocol/gemini/stream.go:45-207 | the same from bytes with event names, ids and comments among the lines, and either line end |
| GeminiSquare.TextBeforeCallDiffers | internal/protocol/gemini/response.go:25-44 | a stream with a text before its call, which the two name differently |
| GeminiSquare.NamesAlwaysAgree | internal/protocol/gemini/response.go:25-44 | names agree on every stream, and arguments wherever present |
| GeminiSquare.CallsAgreeIff | internal/protocol/gemini/response.go:25-44 | calls agree exactly when all have arguments and come before any other part |
| GeminiSquare.FinishAgreesIff | internal/protocol/gemini/stream.go:101-113 | exactly when the finish reasons agree |
| ChatRequest.ContentToText | internal/protocol/anthropic/request.go:154-181 | the text parts joined, parts of unknown type passed over; an image is refused |
| ChatRequest.ContentToTexts | internal/protocol/anthropic/request.go:183-214 | the text parts as blocks, in order, or the first error |
| ChatRequest.LayoutKeepsBlocks | internal/protocol/anthropic/request.go:30-107 | flattening the messages gives every block of the input once and in order |
| ChatRequest.LayoutShape | internal/protocol/anthropic/request.go:30-107 | no message is empty, each is a batch of results or a turn without any, and no two batches are adjacent |
| ChatRequest.LayoutKeepsTurns | internal/protocol/anthropic/request.go:52-84 | the messages that are no batch of results are the turns, each one message under its own role, in order |
| ChatRequest.LayoutSplit | internal/protocol/anthropic/request.go:30-107 | past a turn the layout starts afresh, so that laying out two conversations in a row concatenates |
| ChatRequest.ReadIsEach | internal/protocol/anthropic/request.go:42-98 | each message of an accepted conversation contributes its own item, at its own place |
| ChatRequest.Draft.AddSystem | internal/protocol/anthropic/request.go:44-51 | a system text is set aside without ending a run of tool results |
| ChatRequest.Draft.FlushToolResults | internal/protocol/anthropic/request.go:34-40 | pending results become one user message, and none when there are none |
| ChatRequest.Draft.AddTurn | internal/protocol/anthropic/request.go:52-84 | a turn ends the run of results before it |
| ChatRequest.Draft.AddResult | internal/protocol/anthropic/request.go:85-94 | a tool result waits for its run to end |
| ChatRequest.Draft.Finish | internal/protocol/anthropic/request.go:99-107 | the finished request is the layout of the non-system items and the joined system texts, refused when no message is left |
| AnthropicRequest.OpenAIToAnthropic | internal/protocol/anthropic/request.go:30-107 | the message loop, with its pending buffer, computes the layout, or the first message's error |
| AnthropicRequest.AddCalls | internal/protocol/anthropic/request.go:69-80 | an assistant message's calls as blocks, invalid arguments made {} |
| AnthropicRequest.TranslationKeepsAll | internal/protocol/anthropic/request.go:30-107 | nothing is lost or reordered, each maximal run of tool messages is one user message, every other message is one turn under its own role, no message is empty, and the system text is the non-empty system parts in order |
| AnthropicRequest.WhatIsSaidIsSent | internal/protocol/anthropic/request.go:42-107 | exactly which conversations are accepted; and of those, what each message says is what is sent for it: texts part by part under its role, calls, tool results under their ids, system texts |
| AnthropicRequest.TextIsSent | internal/protocol/anthropic/request.go:52-94 | a user's plain text is a message of its own, and a tool's answer a block |
| AnthropicRequest.HistoryRoundTripIff | internal/protocol/anthropic/request.go:59-84 | the item of a translated answer sent back as history is one text block with all its text and then its own tool blocks, if and only if every tool input is valid JSON |
| AnthropicRequest.HistoryReturnsIff | internal/protocol/anthropic/request.go:59-84 | in any accepted conversation that holds a translated answer, one message sent is the assistant's with that answer's text and, if and only if all inputs are valid JSON, its own tool blocks |
| AnthropicRequest.InvalidInputIsLost | internal/protocol/anthropic/request.go:69-80 | a tool input that is no JSON and comes back as {} |
| AnthropicRequest.ToolUsesReturnIff | internal/protocol/anthropic/request.go:69-80 | the tool blocks return as they were exactly when their inputs are valid JSON; their number always |
| GeminiRequest.AssistantParts | internal/protocol/gemini/request.go:60-88 | an assistant message's parts, and the names its calls teach the table |
| GeminiRequest.AddCalls | internal/protocol/gemini/request.go:70-84 | an assistant message's calls as parts, invalid arguments made {}, and the names they teach |
| GeminiRequest.TakeIn | internal/protocol/gemini/request.go:43-111 | one message adds its item, or returns its error, with the name table kept right |
| GeminiRequest.OpenAIToGemini | internal/protocol/gemini/request.go:30-122 | the message loop computes the layout, or the first message's error |
| GeminiRequest.TranslationKeepsAll | internal/protocol/gemini/request.go:30-122 | as for Anthropic: blocks, batches, turns and roles, system text |
| GeminiRequest.WhatIsSaidIsSent | internal/protocol/gemini/request.go:43-122 | the same for Gemini, tool results under the function they answer for |
| GeminiRequest.TextIsSent | internal/protocol/gemini/request.go:53-107 | a user's plain text is a content of its own, and a tool's answer a part |
| GeminiRequest.LatestNameIsLatest | internal/protocol/gemini/request.go:94-100 | a tool result without a name takes that of the latest earlier call under its id, and has none to take exactly when there is no such call |
| LogStore.Ring.constructor | internal/metrics/logs.go:123-131 | an empty ring, of 10000 entries when no capacity is given |
| LogStore.Ring.Append | internal/metrics/logs.go:145-159 | one stamped entry is added to the history, whatever slot it takes |
| LogStore.Ring.Clear | internal/metrics/logs.go:161-167 | the history starts anew |
| LogStore.Ring.Snapshot | internal/metrics/logs.go:169-186 | the last min(cap, n) entries, oldest first, read around the ring's end |
| LogStore.Play | internal/metrics/logs.go:145-186 | after any run of appends and clearings, a snapshot is the last min(cap, n) entries since the last clearing, in append order |
| LogStore.Filter | internal/metrics/logs.go:197-218 | the filtering loop keeps exactly the matching entries |
| LogStore.CutPage | internal/metrics/logs.go:220-252 | sorting, total, limits and the page's bounds |
| LogStore.Ring.List | internal/metrics/logs.go:188-253 | a query's answer is a page of the last entries' listing |
| LogStore.MatchingIsExact | internal/metrics/logs.go:197-218 | each matching entry is listed as often as it is held, and no other |
| LogStore.PagesTile | internal/metrics/logs.go:188-253 | pages at offsets 0, L, 2L, ... concatenate to one ordered listing of exactly the matching entries, Total their number |
| LogStore.PagesAnswer | internal/metrics/logs.go:188-253 | what a query is answered with: which entries, in which order, how many a page, how many in all, and whether the log begins later than asked |
| LogStats.Stats | internal/metrics/logs.go:255-384 | the report of a window: totals, groups and buckets of exactly its entries, ranked and in time order |
| LogStats.CountAll | internal/metrics/logs.go:280-336 | every map tallies its label over the entries of the window |
| LogStats.Percentile | internal/metrics/logs.go:425-439 | the index into the sorted durations, which are left as they were |
| LogStats.StatsConserve | internal/metrics/logs.go:255-384 | requests, tokens and errors are the sums over providers, over keys, over status classes and over buckets |
| LogStats.ReportsCount | internal/metrics/logs.go:255-384 | the window's reach, and totals and groups as counts over the whole log by provider, key and class of status |
| LogStats.GroupsConserve | internal/metrics/logs.go:280-360 | the groups of any label add up to the total |
| LogStats.BucketsPartition | internal/metrics/logs.go:320-360 | bucket times are strictly ascending multiples of the size; each entry is in one bucket, which spans its time exactly when that is not negative or a multiple, and then no other bucket does |
| LogStats.BucketsReport | internal/metrics/logs.go:320-360 | buckets begin at multiples of five minutes, an hour or a day, with the sums of the entries up to the next |
| LogStats.BucketHoldsIff | internal/metrics/logs.go:320-323 | when the bucket of an entry spans its time |
| LogStats.NegativeTimeHappens | internal/metrics/logs.go:320-323 | an entry counted in a bucket that does not span it |
| LogStats.P95Ranks | internal/metrics/logs.go:425-439 | p95 is one of the durations, with floor((n-1)*95/100) + 1 of them not above it and n minus that floor not below it |
| Slug.Slugify | internal/store/slug.go:13-36 | the loop over runes computes the slug |
| Slug.ValidSlug | internal/store/slug.go:38-59 | the scan accepts exactly the valid slugs |
| Slug.SlugIsCanonical | internal/store/slug.go:13-59 | every slug made is in normal form and valid, whatever the input |
| Slug.SlugFixesIff | internal/store/slug.go:13-36 | exactly the normal forms are left as they are; making slugs is idempotent |
| Slug.SlugIsItsWords | internal/store/slug.go:13-36 | a slug is the words of its input, lower-cased, joined by dashes, cut to 64 characters where longer, or the fallback where there are none |
| Slug.UniqueProviderSlug | internal/store/slug.go:61-82 | the loop finds the first free candidate |
| Slug.FirstFreeIsFree | internal/store/slug.go:61-82 | what is found is free and a candidate; nothing is found only when no candidate is free |
| Slug.AllocatedIsFirst | internal/store/slug.go:61-82 | the slug handed out is the first free of the base and base-2 to base-998 |
| Slug.AllocatedIsUnheld | internal/store/slug.go:61-82 | a slug handed out is held by no other provider |
| Slug.AllocationSucceeds | internal/store/slug.go:61-82 | with fewer than 998 other providers a slug is always found |
| Slug.CandidateValidIff | internal/store/slug.go:61-82 | a candidate is valid exactly when it is at most 64 long |
| Slug.AllocatedValidIff | internal/store/slug.go:61-82 | the slug handed out is valid if and only if some free candidate is at most 64 long; a base of at most 60 always gives a valid one |
| Slug.LongCandidateHappens | internal/store/slug.go:61-82 | a slug handed out that is not valid |
| Slug.ProviderTable.EnsureProviderSlugs | internal/store/slug.go:84-119 | slugs held are kept, none is held twice, all are non-empty exactly on success, and up to 998 providers it succeeds |
| Slug.ProviderTable.FillOne | internal/store/slug.go:106-114 | one row of the backlog gets a slug of its own, or the table has too many rows |
| AliasImport.ParseAliasText | ui/src/features/aliases/parseAliasLines.ts:44-85 | the lines of a text that are neither blank nor comments, each with its number |
| AliasImport.ParseLine | ui/src/features/aliases/parseAliasLines.ts:49-81 | name, routing mode or the default, targets, and the first error |
| AliasImport.LineOfCRLF | ui/src/features/aliases/parseAliasLines.ts:45 | a carriage return before a line feed is part of the break |
| AliasImport.WordsSplit | ui/src/features/aliases/parseAliasLines.ts:53-54 | words end at any space |
| AliasImport.LineIsSkippedIff | ui/src/features/aliases/parseAliasLines.ts:49-51 | a line is passed over exactly when it is blank or a comment |
| AliasImport.LineSays | ui/src/features/aliases/parseAliasLines.ts:49-81 | name, routing or the default, targets in order and whether there is an error, of any line of words |
| AliasImport.PrintParseRoundTrip | ui/src/features/aliases/parseAliasLines.ts:44-85 | printing well-formed rows and parsing the text gives the rows back in order |
| AliasImport.TokenReads | ui/src/features/aliases/parseAliasLines.ts:38-42 | slug:model reads back as it was, colons in the model included |
| AliasImport.ResolveTargets | ui/src/features/aliases/parseAliasLines.ts:174-202 | a row's targets resolve without a message exactly when all providers are known and no pair comes twice; then targets stand at their positions, and an override is needed exactly for an undiscovered model not allowed |
| AliasImport.ProviderIsNamed | ui/src/features/aliases/parseAliasLines.ts:87-96 | a reference names a provider by slug, or for want of one by id |
| AliasImport.ResolveRows | ui/src/features/aliases/parseAliasLines.ts:115-235 | a row is accepted if and only if it parsed, its name is new here and among the existing, and its targets resolve |
| AliasImport.ResolveAliasLines | ui/src/features/aliases/parseAliasLines.ts:98-236 | the same of a pasted text |
| AliasImport.ImportIsSafe | ui/src/features/aliases/parseAliasLines.ts:238-247 | of any text, the aliases made have distinct new names, and each distinct targets on known providers at positions 0, 1, 2, ... |

## Left out

- HTTP: transport, headers and their copying, flushing, contexts, timeouts and durations. An upstream
  call is an arbitrary result, and the client's writer a trace of heads and bytes.
- JSON encoding and decoding: a text's event, usage or validity is a function given to the model, and
  error bodies are structured rather than spelled out. URLs and sampling parameters, stop sequences,
  tools and tool_choice of requests are not modelled, nor checks for a nil response.
- SQL: a table is what its query answers at one moment, with None for a failed query; database errors
  inside slug allocation are not modelled. Every provider's keys in one pool load, and the lookups of
  one direct resolution, are read at one moment.
- A connection that fails is modelled for streams, where the failing write may be taken in part; a
  whole answer is written without looking at what becomes of it, as in the source, and counts as sent.
- Integer widths: positions, token sums and times are mathematical integers. The percentile's index
  is the integer form of the float product.
- `sort.Slice` is a concrete stable sort, and a map's iteration a concrete order; no theorem depends
  on ties or on that order.
- `random` routing takes a number given to the model; Unicode lower-casing is a given table of
  characters, whose output the ASCII filter cleans, so that byte and character lengths agree.
- net/http refuses a head with code 0; the model records the head the gateway asks for.
- The embeddings handlers of a provider whose protocol is not registered would fail on a nil
  protocol; the model takes such a provider as one without embeddings.
- The model tallies every counter under every label; the source keeps requests and tokens alone for
  gateway keys, and requests alone for status classes. The error rate is a real number, not a float.
- Log fields that no query reads, the wording of alias import messages other than which one comes
  first, and the labels shown for targets.
- Configuration, admin handlers, authentication, cookies, tokens, static files and the rest of the user
  interface: none of these is part of the model.
