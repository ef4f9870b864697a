# A verified model of the gateway's delivery, streaming, prompt, credential and key logic

The gateway forwards chat requests to a pool of upstream accounts. This project models the parts of it
whose correctness does not follow from reading one function, and proves what they are for.

- **The durable writer.** Events reach PostgreSQL through Redis Streams, which deliver at least once.
  `WriterEvents`, `AccountStats`, `UsageAggregation` and `WriterStore` model one batch: the inbox insert,
  the grouping loops and the upserts in one transaction, with the loops proved against functions and the
  transaction proved to be a plain fold of the accepted events. `WriterProtocol` is the step system around
  it: any number of writers that publish, read, reclaim, commit, crash, acknowledge and dead-letter in any
  interleaving.
- **The chat streaming proxy.** `ToolCalls` is the in-place tool-call accumulator, `ReasoningCompat` the
  think-tag rewriter, `StreamProxy` one request over a chain of accounts and whatever each upstream sends.
  Frames follow Server-Sent Events (section 9.2 of the WHATWG HTML Standard) and are values, not text.
- **The prompt.** `JsonCanonical` is the key-sorting of JSON, `KeySort` the stable sort below it,
  `PromptStabilize` tools and tool calls, `PromptMessages` messages and the body rewritten in place.
- **Smaller state.** `ClientCache` (the LRU of proxy clients), `DisconnectProbe` (the debounced disconnect
  latch), `CredentialMerge` (which credential generation survives an import), `KeyCache` (the API-key
  cache against the row scan), `Topology` and `PhasedVerification` (the live verification of an imported
  batch: phases, workers, retries and the start-rate limiter).

Objects that the code updates in place are classes with the same fields; loops are methods with
invariants, each proved against a function or a predicate whose own properties are lemmas. Protocols that
interleave are step systems over values, and their theorems hold for every sequence of steps.

Where the code does not do what its comments suggest, the model follows the code and the exact condition
is a lemma: `RegroupingFreeIffDecided` (when batching statistics is harmless), `ExactlyOnce` (retention
against redelivery), `AppliedMayBeDeadLettered` (applied and dead-lettered events overlap),
`TokensInEveryRun` (usage that precedes its account row), `IncrementsMatchDailyRows` (clipped identifiers),
`ExpiryNeverEarlier` and `PairStaysTogether` (imports without a token or a refresh token), and
`NoRollbackInAnyOrder` (a user with several stored generations).

Parts that other modules decide are parameters with a stated contract: `ToolCalls.Rules` (argument
coercion, completeness, required keys, renaming), `PromptStabilize.Lang` (`str`, `strip`, `lower`, JSON
printing and parsing, contract `Faithful`, met by the instance in `PrintedJson`),
`CredentialMerge.Reader` (reading times and cookies), `KeyCache.KeyStore` (the hash). Clocks, randomness,
health answers, disconnect answers and everything an upstream does are inputs.

## Model

| member | source | states |
|---|---|---|
| AccountStats.GroupedMeaning | grok2api/writer.py:205-240 | What the grouping loop holds for an account: the sums over its events, the greatest success sequence, and the reset flag of an event with exactly that sequence. |
| AccountStats.ClearedOnlyByNewerSuccess | grok2api/writer.py:241-282 | For every batch the stored version never decreases, and the failure count of an existing row changes only to zero and only when some success in the batch is strictly newer than the stored version and resets. |
| AccountStats.RegroupingKeepsCore | grok2api/writer.py:204-282 | Counters, last use and version come out the same for every split into batches of every order of the events. |
| AccountStats.RegroupingFreeIffDecided | grok2api/writer.py:228-279 | The whole row, failure count included, is independent of split and order exactly when no positive-sequence success resets or all those with the greatest sequence do. |
| AccountStats.CoreOfStats | grok2api/writer.py:204-282 | One batch of statistics, grouped and upserted, is the fold of its single events. |
| AccountStats.CoreOfStates | grok2api/store/settings_pg.py:580-632 | A run of state events is the same fold, so statistics and state events commute on counters and version. |
| AccountStats.TokensKept | grok2api/writer.py:241-282 | Statistics batches never touch the token totals of a row. |
| UsageAggregation.MergeIsFold | grok2api/writer.py:284-400 | Merging the rows aggregated from a batch into the stored daily rows equals adding its events one by one. |
| UsageAggregation.AddUsageCommutes | grok2api/writer.py:290-315 | Two usage events may be added in either order. |
| UsageAggregation.GlobalRowCounts | grok2api/writer.py:293-315 | On each day the global row has requests = success + fail = number of events of that day, and cache hits between zero and the successes. |
| UsageAggregation.SliceAtMostGlobal | grok2api/writer.py:305-315 | Any set of key rows, account rows or model rows of a day sums to at most the global row of that day. |
| UsageAggregation.SumDaysIsSpent | grok2api/writer.py:304-315 | The daily rows of one identifier over all days sum to the cost of exactly the events billed to it. |
| UsageAggregation.UpdateKeysIsFold | grok2api/writer.py:316-325 | The per-key increments of a batch applied to the stored key rows equal charging its events one by one. |
| UsageAggregation.IncrementsMatchDailyRows | grok2api/writer.py:284-432 | Key and account increments fall short of the daily rows of the same identifier by exactly the cost of the events whose longer identifier is clipped to it: a key increment agrees exactly when there is none, an account increment exactly when none of them carries tokens. |
| WriterEvents.SelectPartitions | grok2api/writer.py:467-498 | The split of a batch by kind loses and duplicates nothing. |
| WriterStore.AcceptMeaning | grok2api/writer.py:185-202 | The inbox insert returns events of the batch with new, non-empty, pairwise distinct ids, and afterwards every non-empty id of the batch is in the inbox. |
| WriterStore.CommitIsFold | grok2api/writer.py:467-504 | One transaction, with events sorted by kind and aggregated, counts each accepted event exactly once, whatever the order of the batch. |
| WriterStore.CommitTokens | grok2api/writer.py:401-412 | For every account and one commit: rows never vanish, and an account with a row afterwards, even one just created, grows by exactly the tokens of the accepted usage events. |
| WriterStore.CommitDecides | grok2api/writer.py:241-282 | In one commit of statistics and state patches the version of a stored account never decreases, and its failure count changes only by an accepted event newer than the stored version that resets or patches it. |
| WriterStore.TokensBeforeRowAreLost | grok2api/writer.py:401-412 | Usage committed before the account has a row leaves no tokens anywhere, while the other order stores them. |
| WriterStore.Store.InsertInbox | grok2api/writer.py:185-202 | The insert loop accepts exactly the specified events and adds exactly their ids. |
| WriterStore.Store.GroupByAccount | grok2api/writer.py:206-240 | The grouping loop computes the specified delta per account. |
| WriterStore.Store.ApplyAccountStats | grok2api/writer.py:204-282 | Grouping and upserting a batch changes the pool as specified and reports the number of accounts. |
| WriterStore.Store.Aggregate | grok2api/writer.py:285-330 | The usage loop fills daily rows, key increments and account increments as specified. |
| WriterStore.Store.BumpRows | grok2api/writer.py:312-315 | The loop over an event's dimensions raises each of its rows once. |
| WriterStore.Store.ApplyUsage | grok2api/writer.py:284-432 | Daily, pool and key rows after a usage batch are the specified ones. |
| WriterStore.Store.Transact | grok2api/writer.py:467-504 | The transaction either commits all of its effects or, when an accepted payload does not convert, none. |
| WriterProtocol.RunsAreSafe | grok2api/writer.py:47-182 | In every run of any number of writers the protocol invariant holds: shape of the stream, batches, no loss, and the ledger. |
| WriterProtocol.ExactlyOnce | grok2api/writer.py:467-545 | The stored counters are the fold of the applied events in any order, applied ids are the inbox ids plus the purged ones, and no id is applied twice exactly when no commit meets an id that retention has removed. |
| WriterProtocol.NothingIsLost | grok2api/writer.py:138-182 | Every message ever appended is deliverable, pending, applied or dead-lettered, and a decodable one is dead-lettered only at or above the retry limit. |
| WriterProtocol.UsageConservedInEveryRun | grok2api/writer.py:284-400 | In every reachable state the stored daily rows conserve the applied usage events of each day. |
| WriterProtocol.TokensInEveryRun | grok2api/writer.py:401-412 | In every run and for every account the totals are the initial ones plus the tokens of events accepted in commits after which it has a row; they account for all applied events exactly when no event committed before its row exists carries tokens of it. |
| WriterProtocol.FailuresDecided | grok2api/writer.py:204-282 | From any state on, in every run: the version of an account never decreases, and its failure count changes only if an event was applied since that is newer than its version, a resetting success or a state patch. |
| WriterProtocol.CommittedThenDeadLettered | grok2api/writer.py:529-545 | When acknowledging an exhausted message fails after the commit, it is copied to the dead-letter stream all the same. |
| WriterProtocol.AppliedMayBeDeadLettered | grok2api/writer.py:529-545 | A run that ends with the same event both applied and dead-lettered. |
| WriterProtocol.LedgerKept | grok2api/writer.py:467-512 | Every single step keeps the books: only a commit changes the database, by exactly the accepted events. |
| WriterProtocol.CommitCovers | grok2api/writer.py:504-512 | When a batch may be acknowledged, each of its ids has been applied. |
| ToolCalls.LiveStepMeaning | grok2api/app.py:3625-3690 | One live call emits at most one tool, exactly when the lowest waiting slot is complete; it carries the next dense index, was not emitted before, and overtakes no known lower slot. |
| ToolCalls.FrontExists | grok2api/app.py:3640-3672 | As soon as any known slot waits there is a front slot, so a live call never stalls on ordering alone. |
| ToolCalls.LiveRunsAreOrdered | grok2api/app.py:3480-3690 | Over every sequence of delta batches the i-th emitted tool has index i, no slot is emitted twice, and no tool overtakes a lower slot known at that moment. |
| ToolCalls.NextIndexIsCount | grok2api/app.py:3480-3500 | The least free outbound index is the number of tools built so far. |
| ToolCalls.FlushStepMeaning | grok2api/app.py:3693-3735 | One flush pass ships the lowest slot that may ship, if any, and exactly that slot stops being flushable. |
| ToolCalls.ToolAccumulator.IngestDeltas | grok2api/app.py:3503-3560 | The merge loop over a batch of deltas computes the specified slots; a delta without a usable index goes to slot 0, one that is no object is skipped. |
| ToolCalls.ToolAccumulator.FreeIndex | grok2api/app.py:3480-3500 | The index search finds the least index no slot has taken. |
| ToolCalls.ToolAccumulator.BuildItem | grok2api/app.py:3578-3623 | Building one frame marks the slot and assigns its index as specified. |
| ToolCalls.ToolAccumulator.ArgumentDelta | grok2api/app.py:3625-3690 | The in-place live call is a live step after the merge. |
| ToolCalls.ToolAccumulator.FlushOne | grok2api/app.py:3693-3735 | The in-place flush pass, with its rewriting of the slots it passes over, is a flush step. |
| ToolCalls.ToolAccumulator.FlushAll | grok2api/app.py:6348-6378 | The flush loop terminates; its frames are the slots that could ship, in order and once each, never above the cap, and nothing flushable is left unless the cap was reached. |
| ReasoningCompat.Compat.Rewrite | grok2api/app.py:3225-3260 | One delta becomes the specified text, with and without tags, and opens or closes the think block accordingly. |
| ReasoningCompat.Compat.CloseTagChunk | grok2api/app.py:3262-3266 | The closing tag appears exactly when a block is open, and closes it. |
| ReasoningCompat.RewrittenText | grok2api/app.py:3225-3260 | In every mode rewriting one delta only adds tags: without them its text is the content, or reasoning and content in order, and nothing goes out exactly when nothing came in. |
| ReasoningCompat.ThinkTagsBalanced | grok2api/app.py:3205-3266 | For every stream the pieces plus the closing chunk alternate open and close, end closed, and without tags are the reasoning and content in order. |
| StreamProxy.Turn.Run | grok2api/app.py:5855-6640 | For every chain and every upstream behaviour the wire is silent earlier attempts, one attempt's body and one tail; failover never passes an account whose stream ends properly, or whose JSON answer parses, and says something; an empty chain gives error and done. |
| StreamProxy.Turn.TryAccount | grok2api/app.py:5855-6628 | One account attempt ends as told by `Story`; when the loop moves on, the wire holds at most the role frame and keepalives. |
| StreamProxy.StoryMeans | grok2api/app.py:5855-6640 | At most one role frame, before all content; exactly one done frame, the last; after a tool frame the finish reason is never "stop". |
| StreamProxy.StoryTools | grok2api/app.py:6175-6200 | Tool frames on the wire carry dense indices and distinct slots, and never exceed the cap. |
| StreamProxy.StoryEnded | grok2api/app.py:6379-6545 | How a served attempt's invariants become the client's guarantees: text and tools unmixed when tools were requested, text complete in every rewriting mode when no tool left, all shippable tools sent, the upstream's own finish reason. |
| StreamProxy.Turn.OnChunk | grok2api/app.py:6003-6203 | One parsed chunk keeps the attempt's invariants and adds exactly its texts, slots and finish reason to what was heard. |
| StreamProxy.Turn.OnTools | grok2api/app.py:6025-6064 | Tool deltas of a chunk: merged, at most one tool taken while the budget lasts, and a tool that leaves clears held text. |
| StreamProxy.Turn.Filter | grok2api/app.py:6066-6093 | Rewritten text is held while tools may come, dropped once one has left, passed on otherwise. |
| StreamProxy.Turn.OnFinish | grok2api/app.py:6098-6124 | The finish reason is kept, and an open think block is closed unless text is held or dropped. |
| StreamProxy.Turn.EmitSerial | grok2api/app.py:3417-3465 | Tool frames leave one by one with keepalives between, exactly as many as the budget allows. |
| StreamProxy.Turn.Drain | grok2api/app.py:6171-6200 | Draining further complete tools terminates and keeps the invariants. |
| StreamProxy.Turn.ServeEvents | grok2api/app.py:5983-6203 | Reading a stream hears exactly what precedes its end-of-data line and raises exactly when it breaks before that. |
| StreamProxy.Turn.OnBody | grok2api/app.py:6204-6346 | A JSON answer sends tools or text, never both, and never more tools than the cap. |
| StreamProxy.Turn.FlushTools | grok2api/app.py:6348-6378 | The terminal flush leaves no shippable tool unless the cap is reached. |
| StreamProxy.Turn.Conclude | grok2api/app.py:6348-6521 | Non-blank text, or a client that is gone, always gets terminal frames; otherwise the attempt is retried exactly when nothing was sent and accounts remain. |
| StreamProxy.Turn.CloseText | grok2api/app.py:6473-6501 | The held preface leaves exactly when no tool did, and an open think block is closed. |
| StreamProxy.InvTools | grok2api/app.py:6025-6064 | Merging a chunk's tools keeps dense indices, the cap and text conservation. |
| StreamProxy.InvFiltered | grok2api/app.py:6066-6093 | Holding or dropping rewritten text keeps conservation in every mode, and passes text on only when no tools were requested. |
| StreamProxy.InvFinishing | grok2api/app.py:6098-6124 | Closing a think block at the finish adds no visible text and never puts text next to requested tools. |
| StreamProxy.ReasonTwice | grok2api/app.py:3945-3953 | Settling the finish reason early does not change it when a tool leaves later. |
| KeySort.SortForgets | grok2api/app.py:1047-1054 | Sorting by key gives one result for all orders of elements with distinct keys. |
| KeySort.SortCollectTwice | grok2api/app.py:1660-1685 | Filtering, normalising and sorting twice is doing it once. |
| JsonCanonical.CanonDecidesSame | grok2api/app.py:1423-1431 | Two values have one canonical form exactly when they are equal up to object key order at every depth. |
| JsonCanonical.CanonIsSame | grok2api/app.py:1423-1431 | Canonicalising changes nothing but key order. |
| JsonCanonical.CanonTwice | grok2api/app.py:1423-1431 | Canonicalising twice is canonicalising once. |
| PromptStabilize.CanonTextTwice | grok2api/app.py:1433-1468 | Canonical argument text is a fixed point. |
| PromptStabilize.CanonTextDecides | grok2api/app.py:1433-1468 | Two argument texts holding objects or arrays become one text exactly when they are equal up to key order. |
| PromptStabilize.ParamsTwice | grok2api/app.py:975-1004 | Stabilised tool parameters are an object schema that stabilising leaves alone. |
| PromptStabilize.ParamsForget | grok2api/app.py:1471-1474 | Stabilised parameters do not depend on key order at any depth. |
| PromptStabilize.ToolTwice | grok2api/app.py:1007-1044 | A stabilised tool, in whatever shape it came and with whatever extras, is a fixed point. |
| PromptStabilize.ToolsTwice | grok2api/app.py:1658-1686 | Stabilising a stabilised tool list changes nothing, repeated names included. |
| PromptStabilize.ToolsForget | grok2api/app.py:1658-1686 | The same plain tools in any order, with keys in any order at any depth, go out as one list when lower-cased names differ. |
| PromptStabilize.CallTwice | grok2api/app.py:1477-1522 | A stabilised tool call of the history is a fixed point. |
| PrintedJson.ContractIsMet | grok2api/app.py:1423-1468 | The contract that the prompt results put on `str`, `strip`, `lower` and JSON printing and parsing is met by concrete compact printing, its inverse and plain trimming. |
| PromptMessages.TextTwice | grok2api/app.py:1525-1543 | System text normalised twice is normalised once. |
| PromptMessages.ContentTwice | grok2api/app.py:1576-1631 | Message content of every shape is a fixed point after one pass. |
| PromptMessages.MessageTwice | grok2api/app.py:1546-1639 | A stabilised message is a fixed point: role, names, tool calls, content and reasoning. |
| PromptMessages.BodyTwice | grok2api/app.py:1642-1738 | A body that went through once comes out unchanged the second time, with as many messages in the same order. |
| PromptMessages.PromptBody.CleanTools | grok2api/app.py:1658-1686 | The tools loop and its final sort compute the specified list. |
| PromptMessages.PromptBody.Stabilize | grok2api/app.py:1642-1738 | The body's tools and messages are rewritten in place as specified and the metadata is dropped. |
| ClientCache.LruRefinesRecency | grok2api/app.py:356-400 | After any requests the cache holds exactly the most recently used keys, at most the limit, in the order of last use, the requested key among them. |
| ClientCache.RecencyMeans | grok2api/app.py:356-400 | The recency order lists every requested key once, ordered by its last request. |
| ClientCache.ProxyClients.Get | grok2api/app.py:356-400 | A healthy cached client is reused, anything else gets a new client under the same key, and the cached keys are what the request history makes them. |
| DisconnectProbe.LostStep | grok2api/app.py:2948-2979 | After one more check the client is lost exactly if it was before or the hits of the final stretch without a false answer are now enough. |
| DisconnectProbe.LosesNow | grok2api/app.py:2948-2979 | A check ends a losing stretch exactly when it is a hit and the whole final stretch has enough hits over the span. |
| DisconnectProbe.Probe.Observe | grok2api/app.py:2948-2979 | The probe is latched exactly when its history has lost the client, and stays so. |
| CredentialMerge.DurableKept | grok2api/pool/accounts.py:140-164 | No durable field that either entry has is lost, and the incoming entry's own values stay. |
| CredentialMerge.MergeImported | grok2api/pool/accounts.py:167-211 | The field-by-field merge in place computes the specified entry. |
| CredentialMerge.ExpiryNeverEarlier | grok2api/pool/accounts.py:167-211 | With explicit expiries the merged expiry is not earlier than the stored one exactly when both entries have a token or the incoming one expires no earlier. |
| CredentialMerge.PairStaysTogether | grok2api/pool/accounts.py:195-211 | For any two entries: the winner keeps its access token exactly when it is the incoming one, the tokens agree, or it reads its token from a field at least as early; it keeps its refresh token exactly when it has one or the other has none. |
| CredentialMerge.FoldKeepsLatest | grok2api/pool/accounts.py:214-221 | Merging normalised duplicates with distinct tokens and expiries leaves the pair of the latest-expiring one if any of them tells an expiry, and of the last one otherwise. |
| CredentialMerge.FoldIgnoresOrder | grok2api/pool/accounts.py:214-221 | Every order of the same normalised duplicates leaves the same pair, as soon as one of them tells an expiry. |
| CredentialMerge.AccountMap.Collapse | grok2api/pool/accounts.py:1310-1329 | Whatever the order of the stored keys, the user's other keys go and the entry merged with is a preferred one: with a refresh token if any candidate has one. |
| CredentialMerge.AccountMap.Import | grok2api/pool/accounts.py:1310-1331 | One imported entry is merged with the preferred stored one, and every other key of other users stays as it is. |
| CredentialMerge.OneKeyPerUser | grok2api/pool/accounts.py:1302-1333 | After any import into any map each imported user has exactly one key. |
| CredentialMerge.OthersUntouched | grok2api/pool/accounts.py:1302-1333 | Entries under other keys of users that are not imported keep their value. |
| CredentialMerge.ImportNeverRollsBack | grok2api/pool/accounts.py:1302-1333 | With tokens and explicit expiries everywhere, an import never leaves an earlier expiry than that of the stored entry it merged with, and loses no later generation of the user exactly when each of them expires no later than that merge. |
| CredentialMerge.NoRollbackInAnyOrder | grok2api/pool/accounts.py:1310-1331 | Over every order of the stored keys: no import result rolls a generation of the user back exactly when, for every entry the import may merge with, each stored generation of the user is reached by it or by an imported one with another token. |
| CredentialMerge.LaterGenerationIsDropped | grok2api/pool/accounts.py:1310-1331 | A concrete map in which one user has two keys and every run of the import drops the later-expiring generation. |
| CredentialMerge.MayMergeIsPreferred | grok2api/pool/accounts.py:1322-1327 | Which stored entries the import may merge with, by the map before the call: the one under the new key unless only others have a refresh token. |
| KeyCache.ScanMeans | grok2api/admin/apikeys.py:330-335 | The uncached scan finds the first enabled row with the hash, and nothing exactly when there is none. |
| KeyCache.KeyStore.Verify | grok2api/admin/apikeys.py:284-358 | Whatever was cached or has expired, verification names a row exactly when the scan finds that enabled row; only usage counters change. |
| KeyCache.KeyStore.CachePut | grok2api/admin/apikeys.py:38-43 | The cache never exceeds its maximum and keeps agreeing with the rows. |
| KeyCache.KeyStore.CacheGet | grok2api/admin/apikeys.py:27-35 | A hit is a row the scan would find now; after a miss nothing is cached under the hash. |
| KeyCache.KeyStore.Lookup | grok2api/admin/apikeys.py:312-358 | The scan loop answers as specified and leaves the cache agreeing with the rows. |
| KeyCache.KeyStore.Create | grok2api/admin/apikeys.py:174-197 | A new enabled row is appended and the cache emptied. |
| KeyCache.KeyStore.Rewrite | grok2api/admin/apikeys.py:200-240 | Changing the first row with an id empties the cache, so that it agrees with the new rows. |
| KeyCache.KeyStore.Regenerate | grok2api/admin/apikeys.py:200-221 | The first row with the id gets the new secret, prefix and hash, and the cache agrees with the new rows. |
| KeyCache.KeyStore.SetEnabled | grok2api/admin/apikeys.py:224-239 | The first row with the id is switched, and the cache agrees with the new rows. |
| KeyCache.KeyStore.Update | grok2api/admin/apikeys.py:263-281 | The first row with the id is renamed or annotated, a blank name leaving the old one, and the cache agrees. |
| KeyCache.KeyStore.Delete | grok2api/admin/apikeys.py:242-260 | Deleting removes exactly the rows with the id and reports whether there were any. |
| KeyCache.RevokedAtOnce | grok2api/admin/apikeys.py:200-260 | Disabling, rotating or deleting a row makes its old hash verify to nobody at once and leaves the answer for every other hash; an enabled rotated row is found under its new hash. |
| KeyCache.CacheKeepsAgreeing | grok2api/admin/apikeys.py:335-357 | Counting usage does not make the cache disagree with the rows. |
| Topology.ResolvesExactlyOnce | scripts/verify_imported_credentials.py:345-373 | A credential resolves exactly when each provider has exactly one matching row, and is missing exactly when some provider has none. |
| Topology.TopologyCounts | scripts/verify_imported_credentials.py:345-380 | Complete, missing and duplicate add up to all credentials, and all are complete exactly when each one resolves. |
| Topology.LoadTopology | scripts/verify_imported_credentials.py:345-380 | The loop computes the triplets and counters as specified. |
| PhasedVerification.RunsAreSafe | scripts/verify_imported_credentials.py:592-635 | Under every interleaving each taken target is in exactly one worker's hands or has its one outcome, the counters say what happened, and the limiter's slots are apart. |
| PhasedVerification.PhaseBarrier | scripts/verify_imported_credentials.py:679-692 | When a target starts, every target of every earlier provider has its outcome; no target gets two. |
| PhasedVerification.FinishedPhases | scripts/verify_imported_credentials.py:609-635 | A finished phase attempted N targets, replies plus failures are N, and attempts are at most N times retries plus one. |
| PhasedVerification.StartsArePaced | scripts/verify_imported_credentials.py:560-581 | The k-th start of a phase is not before the first slot plus k intervals. |
| PhasedVerification.OkMeansAllReplied | scripts/verify_imported_credentials.py:122-139 | The verdict is positive exactly when the preflight was clean, nothing failed before, and all targets of all three providers were answered. |
| PhasedVerification.StartRateLimiter.Wait | scripts/verify_imported_credentials.py:574-581 | One wait sleeps until its slot and moves the next slot at least one interval on. |

## Left out

- WriterProtocol.NothingIsLost: dead-letter stream trimming and the stream's own length limits are not modelled; `dlq` counts copies ever made. Ids that retention has purged are an input of a run, not a clock.
- WriterProtocol: batch size, block times, reclaim idle time and heartbeats decide when a step may happen, not what it does; any moment is allowed. XREADGROUP counts per stream, so no bound on batch length is stated.
- WriterStore.Store.Transact: the per-request detail rows and partitions, metrics and logs are not part of the transaction's modelled effect; payload coercions appear as one case, a payload that does not convert.
- AccountStats.CoreOfStates: state patches that set request counters directly are not modelled.
- StreamProxy.Turn.Run: cancellation, client-write failures and errors raised by the proxy's own code after the upstream is done; real time and sleeps; token numbers in the finish and usage frames; success reports and affinity.
- StreamProxy.Turn.TryAccount: text conservation leaves the think tags out. That they alternate is the rewriter's own theorem and not one about the wire, where a chunk with both reasoning and finish may put a close tag first; a JSON answer with pending tools drops its text.
- StreamProxy.Turn.FlushTools: frames of the terminal flush are built together and then sent; the code alternates building and sending, which no client can tell apart.
- The Anthropic and Responses assemblers, history compaction and the media endpoints: nothing is claimed about them.
- PromptStabilize.ToolsForget: functions with keys beyond name, description and parameters keep the client's key order for them, so the statement needs plain tools; `ToolsTwice` does not.
- PromptMessages.PromptBody.Stabilize: the legacy `functions` list and the statistics entry of the body, which repeat the tools case.
- The request-time tool filter for built-in search tools, a check on one field per tool.
- JSON text itself: printing and parsing are parameters with the contract `Faithful`; a number is the text it prints as.
- ClientCache.ProxyClients.Get: event loops, locks, closing of evicted clients, and the path without a lock, which does not evict.
- CredentialMerge.AccountMap.Import: file locks and row locks (the merge runs under them), backups, and the import mode that replaces the whole map; normalisation of foreign formats.
- KeyCache.KeyStore.Verify: PostgreSQL and Redis modes, and other processes writing the same file.
- PhasedVerification.RunsAreSafe: worker bounds and delays between retries decide only when steps happen; provider calls are their outcomes; the early return of a failed preflight runs no phase and leaves the summary as it is.
