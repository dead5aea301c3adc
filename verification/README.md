# Verification of the run pipeline's hard core

A Dafny model of the parts of the system where correctness depends on interleavings, on loops over text or on
several functions together, with proofs of what they keep. `dafny verify dfyconfig.toml` checks everything.

| file | models |
|---|---|
| EventReplay | the per-run event stream: INCR then XADD by many producers, gateway sessions that rescan and filter, the browser's reconnecting client. The clean close is code 1000 (section 7.4.1 of RFC 6455) |
| Json, CacheKey | canonical JSON (objects are unordered, section 4 of RFC 8259), the prompt-cache key and the provider body it stands for |
| Scheduler | the worker's two consumers, two semaphores and one mutex per run |
| CostLedger | the four-step cost record over two stores, and the worker's cost tracker |
| MathScanner | the tag-aware math substitution |
| Latex, Figures | LaTeX escaping, brace matching, wrapper stripping, figure placeholders and the worker's pattern for them |
| CriticLoop | the bounded review and revise loops under a budget |
| RunStore | token batching and clipped kernel output in the browser |
| Replace, SurgicalEdit | substring counting and replacement, and the fine-tune editor's paper tools |
| Sorting, FewShot | stable sorting and staged retrieval |
| InvertedAbstract | rebuilding an abstract from `{word: [positions]}` |
| Router, Forward | the fallback chain, and the adapter and forwarding streams behind it |
| Text, Wrappers | substring search, trimming, `Option` |

What the outside world does is a parameter or a free step: stores, sockets, verdicts, costs, provider answers and
the answers of tracker reads are arbitrary. Hypotheses are named in the contracts: every hello arrives inside its
window, trimming never reaches an undelivered entry. Where a hypothesis can fail the results say exactly what then
happens: `EventReplay.MissedHelloRepeatsIff` for hellos, `CriticLoop.SpendBoundIff` for tracker reads, the collision in
`CacheKey.SameKeyIffSameCall` for the hash.

## Where the code and what is said of it differ

- The run's cost total is `NUMERIC(10,4)` (crates/gateway/migrations/0001_runs.up.sql:10) while the ledger has six
  decimals (crates/gateway/migrations/0003_cost_ledger.up.sql:9), so the two do not agree in general:
  `CostLedger.NoDriftIffRepresentable` says exactly when they do.
- A temperature too large for 32 bits becomes infinite and serializes to null: it shares a cache key with no
  temperature at all, but not a provider body (`CacheKey.SameKeySameBody`). The comment in cache.rs that objects keep
  insertion order does not hold for the pinned serde_json; the model allows any order.
- The cost tracker's description says that the policy's estimates stay in force when a read fails. The loops take
  the failed read's 0 as nothing spent and look at no estimate; `CriticLoop.SpendBoundIff` says on which reads the
  cap depends.
- The review loop's description says that it stops before exceeding the budget, which holds up to the last call's
  overrun (`CriticLoop.SpendBound`), and that the accepted verdict's reminder is kept, where the code writes
  reminders only on exits that are not accepted.
- `substitute_figures` is said to bail out at an unterminated opener; it goes on scanning, with the same result.
- "cumcm" normalizes to "mcm" (`FewShot.CumcmOnlyByChineseName`).
- The pipeline semaphore has no lower bound, unlike the fine-tune one (`Scheduler.NeverStuckIffPermit`).
- `count == 1` is taken to mean one position, which fails for a text that overlaps itself (`Replace.OnePositionIff`).

## Model

| member | source | states |
|---|---|---|
| EventReplay.LostIffOvertaken | crates/gateway/src/routes/ws_run.rs:61-99 | For any stream the producers can write: some run with honoured hellos lets a session pass an entry without delivering it if and only if a higher number stands before it and before every `done` that precedes it; this covers the loss of `done` itself |
| EventReplay.LostForever | crates/gateway/src/routes/ws_run.rs:78-83 | What is lost stays lost: no continuation with honoured hellos delivers it |
| EventReplay.LossNeedsOvertaking | crates/gateway/src/routes/ws_run.rs:74-99 | In every run over any number of sessions, an entry the cursor passed, not delivered and not on the wire, comes after a higher-numbered entry |
| EventReplay.InOrderDeliversPrefix | crates/gateway/src/routes/ws_run.rs:61-99 | While the stream stands in seq order, what reached the browser is a prefix of it across any drops and reconnects, and all of it once a session has caught up |
| EventReplay.AtMostOnce | apps/web/src/api/ws.ts:43-66 | Under every interleaving of INCR, XADD, reads, losses and reconnects whose hello is honoured: numbers in the stream are distinct, no number is handed to `onEvent` twice, and only the last event handed over can be `done` |
| EventReplay.DoneIsFinal | apps/web/src/api/ws.ts:64-74 | From a delivered `done` to the end of any run no event is handed over and the browser never dials again |
| EventReplay.MissedHelloRepeatsIff | crates/gateway/src/routes/ws_run.rs:49-61 | After any honoured run, a delivered event can be delivered again in a continuation whose hellos may miss their window if and only if it has not been trimmed, no `done` stands before it in what is left of the stream, and the client is neither terminal nor done dialling |
| EventReplay.DrainIsTheLoop | crates/gateway/src/routes/ws_run.rs:70-101 | The handler's loop over one reply does what single forwarding steps of the machine do |
| EventReplay.ForwardBatch | crates/gateway/src/routes/ws_run.rs:76-100 | The loop over a batch: the cursor passes every entry, entries at or below `last_seq` are skipped, a forwarded `done` is followed by a normal close and stops the session |
| EventReplay.RunWsClient.OnOpen | apps/web/src/api/ws.ts:43-53 | Opening resets the attempts and sends the high-water mark as `last_seq` |
| EventReplay.RunWsClient.OnMessage | apps/web/src/api/ws.ts:55-66 | An event raises the high-water mark to its number if larger, `done` makes the client terminal, and the event is handed on; anything else is ignored |
| EventReplay.RetriesThreeTimes | apps/web/src/api/ws.ts:70-78 | Three closures in a row after an open are each followed by a dial, after 500, 1500 and 5000 ms, a fourth is not, and a clean one is followed by none |
| EventReplay.RunWsClient.OnClose | apps/web/src/api/ws.ts:70-79 | The reconnect rule: which closes are followed by a retry, and after which of the three delays |
| Json.CanonIsCompleteNormalForm | crates/gateway/src/llm/cache.rs:69-85 | Two values canonicalize alike if and only if they are equal up to object-key order at every depth |
| Json.CanonIdempotent | crates/gateway/src/llm/cache.rs:71-85 | Canonicalizing twice is canonicalizing once |
| Json.CanonSorted | crates/gateway/src/llm/cache.rs:71-85 | The result has ascending keys at every depth |
| Json.CanonKeepsMeaning | crates/gateway/src/llm/cache.rs:71-85 | Canonicalizing changes nothing but key order |
| CacheKey.SameKeyIffSameCall | crates/gateway/src/llm/cache.rs:29-67 | For any hash, two deserialized requests share a key if and only if they agree on everything the key stands for (response format up to key order, stream flag and cache marker aside) or the hash collides on them |
| CacheKey.SameKeySameBody | crates/gateway/src/llm/providers/openai_compat.rs:46-107 | Requests with one key and no collision have the same non-stream provider body, up to key order in `response_format` and the cache marker, if and only if both or neither carry a temperature too large for 32 bits |
| CacheKey.OverflowSharesKey | crates/gateway/src/llm/cache.rs:50-60 | The exception, concretely: an overflowing temperature and no temperature share a key but not a body |
| CacheKey.HitsAnswerTheSameCall | crates/gateway/src/routes/llm.rs:97-134 | Over any history with failed reads, failed and reordered writes, concurrent misses and expiries, what the cache holds for a request is the provider's answer to an earlier miss of the same call, unless the hash collides on the two |
| CacheKey.BuildBody | crates/gateway/src/llm/providers/openai_compat.rs:46-107 | The body built field by field, read back by name: model, stream, temperature, token limit and response format are the request's own, each present exactly when the request has one; usage is asked for exactly when streaming; both reasoning fields stand exactly for low, medium and high; nothing else is sent |
| CacheKey.BodyReadsBack | crates/gateway/src/llm/providers/openai_compat.rs:72-106 | So for the specified body of every request |
| CacheKey.BuildMessages | crates/gateway/src/llm/providers/openai_compat.rs:53-70 | One object per message, in order, giving its role, content and name under those names, the cache marker exactly when set, and nothing else |
| Scheduler.MutualExclusion | apps/agent-worker/src/agent_worker/main.py:82-93 | In every reachable state at most one job of either kind is in the critical section of a run, and neither semaphore is exceeded |
| Scheduler.OneAckPerTask | apps/agent-worker/src/agent_worker/main.py:94-110 | A finished task has attempted exactly one acknowledgement, an unfinished one none; at most one error event, and only from a parsed pipeline job |
| Scheduler.ErrorEventIffRaised | apps/agent-worker/src/agent_worker/main.py:94-105 | Over every run, a finished task has emitted one error event if it was a pipeline job that knew its run and whose pipeline raised, and none otherwise |
| Scheduler.DoneMeansRun | apps/agent-worker/src/agent_worker/main.py:82-93 | A finished task that knew its run held the run's mutex and went through the critical section |
| Scheduler.Progress | apps/agent-worker/src/agent_worker/main.py:187-210 | While a task is unfinished and both semaphores have a permit, some task can step: no deadlock between semaphores and run mutexes |
| Scheduler.Drains | apps/agent-worker/src/agent_worker/finetune_main.py:159-181 | The tasks present take boundedly many steps, and when none can step all have finished with one acknowledgement attempt each |
| Scheduler.NeverStuckIffPermit | apps/agent-worker/src/agent_worker/main.py:189-197 | The worker can never get stuck if and only if its configured concurrency is at least one (the fine-tune semaphore has a lower bound, the pipeline one has not) |
| CostLedger.LedgerAgainstTotal | crates/gateway/src/llm/cost.rs:69-102 | In every reachable state the ledger sum exceeds the run's total by the rounded deltas of calls stopped between INSERT and UPDATE, to within half a unit of the total's column for each call that reached it |
| CostLedger.SixDecimalsConserve | crates/gateway/src/llm/cost.rs:69-102 | With six decimals in that column, ledger minus total is exactly the stopped calls |
| CostLedger.NoDriftIffRepresentable | crates/gateway/src/llm/cost.rs:87-101 | The total follows the ledger through a run if and only if every rounded delta added to it fits the column's scale; the declared scale is four decimals |
| CostLedger.TiesGoAwayFromZero | crates/gateway/src/llm/cost.rs:91-95 | Halves of the column's unit are rounded away from zero |
| CostLedger.DriftBound | crates/gateway/src/llm/cost.rs:87-101 | Each UPDATE drifts by at most half a unit of the column |
| CostLedger.FourDecimalsLoseSmallCalls | crates/gateway/migrations/0001_runs.up.sql:10 | A completed call of 0.00004 RMB stands in the ledger but not in the run's total |
| CostLedger.CleanRunAgrees | crates/gateway/src/llm/cost.rs:87-113 | When n calls completed without failure, the Redis total is within n half-micros of the ledger, the run's total within n half units of its column, and at six decimals ledger and run's total are equal |
| CostLedger.DeltaIsSpendSinceSnapshot | apps/agent-worker/src/agent_worker/cost_tracker.py:89-105 | With successful reads, the tracker's delta is exactly what was mirrored since its snapshot |
| MathScanner.SubstituteMath | apps/web/src/lib/render-math.ts:57-162 | For any renderer that leaves text without `$` alone, the output is the concatenation over the spans of the rendered text where it is text and each of the code, pre, script and style counts before it is zero, and of the span as it stands otherwise; the scan ends |
| MathScanner.PlainTextIsRendered | apps/web/src/lib/render-math.ts:67-75 | Text without a bracket is rendered as a whole |
| MathScanner.ElementText | apps/web/src/lib/render-math.ts:139-154 | What stands in an element is left alone in code, pre, script and style, in any case, and rendered in every other element |
| MathScanner.Inspect | apps/web/src/lib/render-math.ts:78-140 | What stands at a position: more text, a comment, a tag with its name, or a tag that never closes |
| MathScanner.Updated | apps/web/src/lib/render-math.ts:142-154 | The stack after a tag: pushed, or the last occurrence of the name removed |
| MathScanner.SpansCoverInput | apps/web/src/lib/render-math.ts:77-161 | The spans print back to the input: every character is in exactly one |
| MathScanner.SpansAreExact | apps/web/src/lib/render-math.ts:84-137 | A tag span ends at its first `>` and carries its own name and marks, a comment span ends at its first closer, only the last span can be a comment without one, and no text span holds a whole tag, or a comment unless behind a tag that never closes |
| MathScanner.RenderedIffOutside | apps/web/src/lib/render-math.ts:139-154 | The multiplicity of each name in the skip stack is a saturating open-minus-close count of the tags before, so text is rendered if and only if all those counts are zero |
| Latex.LatexEscape | crates/gateway/src/routes/export.rs:658-676 | The loop escapes character by character |
| Latex.EscapeRoundTrip | crates/gateway/src/routes/export.rs:658-676 | Escaping can be undone: unescaping an escaped text gives it back |
| Latex.EscapeIsHarmless | crates/gateway/src/routes/export.rs:658-676 | Every special character of the output stands behind a backslash or is the empty group of a command, and every backslash starts one of the two |
| Latex.EscapeIsNeutral | crates/gateway/src/routes/export.rs:494-515 | Escaped text is brace-safe: scanned at any depth it closes nothing and ends at that depth, unescaped |
| Latex.MatchingBraceEnd | crates/gateway/src/routes/export.rs:494-515 | Returns the first position that closes the brace open before the text, and none if there is none |
| Latex.BraceEndOfEscaped | crates/gateway/src/routes/export.rs:494-515 | For all s and t, the match in escape(s) + "}" + t is exactly at the length of escape(s) |
| Latex.StripSectionCommand | crates/gateway/src/routes/export.rs:460-479 | An escaped title comes back out of any of the five section commands, whatever white space precedes and whatever follows |
| Latex.StripHypertarget | crates/gateway/src/routes/export.rs:480-491 | And out of a hypertarget wrapper whose target has no closing brace |
| Latex.PlainIsOnlyTrimmed | crates/gateway/src/routes/export.rs:461-492 | Text that starts with no command is only trimmed |
| Figures.SubstituteFigures | crates/gateway/src/routes/export.rs:363-390 | The loop is a map over the cut: each placeholder gives its figure's block, an unknown id nothing |
| Figures.OnePlaceholder | crates/gateway/src/routes/export.rs:371-381 | The text before a placeholder stays, a known id gives its figure's block and an unknown one nothing, and the rest is done likewise |
| Figures.PrintOfParse | crates/gateway/src/routes/export.rs:369-388 | Printing the cut gives back the body |
| Figures.ParseOfPrint | crates/gateway/src/routes/export.rs:369-388 | And every canonical cut is the one its own text parses to |
| Figures.ParseIsCanonical | crates/gateway/src/routes/export.rs:371-375 | Text reaches to the first opener and ids to the first closer after it |
| Figures.UnterminatedIsVerbatim | crates/gateway/src/routes/export.rs:382-387 | An opener with no closer leaves everything from there on as it was |
| Figures.SameCutIffSlugs | apps/agent-worker/src/agent_worker/pipeline.py:1102-1138 | The export scanner and the worker's pattern cut a body alike if and only if every id the scanner finds is a slug |
| Figures.CleanBodiesAgree | apps/agent-worker/src/agent_worker/pipeline.py:1102-1138 | When every opener begins a placeholder with a slug id, both find the same placeholders in the same order |
| Figures.CaptionSurvives | crates/gateway/src/routes/export.rs:402-413 | Matching from the caption's brace in a figure block gives back exactly the caption, whatever its characters |
| Figures.BlockHoldsItsFigure | crates/gateway/src/routes/export.rs:392-417 | The block holds its figure's caption, escaped, behind its path and before its id |
| Figures.BlockCaptionSurvives | crates/gateway/src/routes/export.rs:402-413 | So the figure's caption comes back out of its block |
| Figures.WidthIsClamped | crates/gateway/src/routes/export.rs:397-401 | A width over 0 and at most 1 is used, 0.8 for any other |
| CriticLoop.ReviewAndMaybeRevise | apps/agent-worker/src/agent_worker/pipeline.py:374-544 | The review loop returns the artifact, warning and reminders its specification gives; an exception returns nothing |
| CriticLoop.ReviewAndMaybeRerunCoder | apps/agent-worker/src/agent_worker/pipeline.py:547-672 | The coder's loop, likewise, with its own estimate and the writer as next stage |
| CriticLoop.Provenance | apps/agent-worker/src/agent_worker/pipeline.py:440-492 | What comes back is the artifact the last review judged, except after the budget stop that follows a revision, which gives back exactly that one unreviewed revision; a failed revision keeps the prior artifact; an exit is accepted if and only if the last verdict asks for no work |
| CriticLoop.CallBound | apps/agent-worker/src/agent_worker/pipeline.py:418-492 | At most the allowed revisions, and one review more, whatever the tracker says |
| CriticLoop.UpstreamIsNotCharged | apps/agent-worker/src/agent_worker/cost_tracker.py:89-105 | With the baseline and the guarding reads good, what the run cost before the loop changes nothing in its outcome |
| CriticLoop.NoStopWhileItFits | apps/agent-worker/src/agent_worker/pipeline.py:455-484 | With good reads, or without a tracker, a stop for the budget means that the next call's estimate does not fit under the cap on top of what the loop has spent |
| CriticLoop.StageStopsForCause | apps/agent-worker/src/agent_worker/pipeline.py:405-414 | So with the estimates the caller gave, or the policy's |
| CriticLoop.CoderStopsForCause | apps/agent-worker/src/agent_worker/pipeline.py:597-626 | So for the coder, whose reruns have their own estimate |
| CriticLoop.SpendAddsUp | apps/agent-worker/src/agent_worker/pipeline.py:451-485 | At every exit that returns an artifact, spend and estimate add up over exactly the calls that were made |
| CriticLoop.SpendBound | apps/agent-worker/src/agent_worker/pipeline.py:455-484 | When each turn's two reads succeed, a run costs just its unguarded first review, or at most the cap plus what the last call cost beyond its estimate; the baseline's read is not needed |
| CriticLoop.SpendBoundIff | apps/agent-worker/src/agent_worker/pipeline.py:422-484 | For any pattern of successful and failing reads, with estimates between zero and the cap: the bound holds for all verdicts, failures and costs if and only if each of the two reads of each turn succeeds |
| CriticLoop.PolicyBoundIff | apps/agent-worker/src/agent_worker/pipeline.py:145-166 | So it is for the critic's own test under any policy |
| CriticLoop.NoStopWithinEstimate | apps/agent-worker/src/agent_worker/pipeline.py:422-432 | On estimates alone the budget can stop a run only if all its rounds together would exceed the cap |
| CriticLoop.StubbornExit | apps/agent-worker/src/agent_worker/pipeline.py:455-484 | With a critic that is never content, all rounds are used if and only if they fit under the cap |
| CriticLoop.ModelerSecondRevisionUnreviewed | apps/agent-worker/src/agent_worker/pipeline.py:76-104 | Under the default policy a modeler revised twice always comes back unreviewed, and its loop never runs out of rounds |
| CriticLoop.CoderNeverStops | apps/agent-worker/src/agent_worker/pipeline.py:597-643 | Under the default policy no estimate ever stops the coder's loop |
| CriticLoop.OneRoundStagesNeverStop | apps/agent-worker/src/agent_worker/pipeline.py:97-104 | Nor the loops of the stages held to one revision |
| CriticLoop.DeadReadsDisableTheCap | apps/agent-worker/src/agent_worker/cost_tracker.py:54-87 | A failed read counts as nothing spent, so no budget stops the run |
| CriticLoop.DeadReadsMakeEveryCall | apps/agent-worker/src/agent_worker/pipeline.py:422-431 | Then a critic that is never content gets every call the rounds allow, whatever they cost |
| CriticLoop.LostBaselineStopsAtOnce | apps/agent-worker/src/agent_worker/pipeline.py:433-438 | A baseline that failed to read charges the loop for everything before it: over the cap, nothing is revised |
| CriticLoop.WarnsIff | apps/agent-worker/src/agent_worker/pipeline.py:494-512 | The warning goes out if and only if the exit is not accepted and the last verdict has a blocking finding and either failed or was cut short by the budget |
| CriticLoop.VerdictsAreMonotone | apps/agent-worker/src/agent_worker/pipeline.py:145-172 | A better verdict never asks for a revision a worse one would not; a verdict that fails the run always asks for one |
| CriticLoop.ThresholdsDecide | apps/agent-worker/src/agent_worker/pipeline.py:155-163 | A passed report without findings is sent back exactly for a score or pass rate under the stage's threshold |
| CriticLoop.FindingsDecide | apps/agent-worker/src/agent_worker/pipeline.py:145-166 | Over the thresholds: a blocking finding, two major ones, or one if the report was not passed |
| CriticLoop.FindingsOfAll | packages/py-contracts/src/mm_contracts/agent_io.py:218-223 | A finding counts whether the critic or one of its roles made it |
| CriticLoop.PassRateIsShare | packages/py-contracts/src/mm_contracts/agent_io.py:229-234 | The pass rate is the share of passed items, 1 without a checklist |
| CriticLoop.NextStageRunsNext | apps/agent-worker/src/agent_worker/pipeline.py:175-184 | A stage's reminder is for the stage that runs right after it |
| CriticLoop.ReminderWritten | apps/agent-worker/src/agent_worker/pipeline.py:522-527 | A reminder is written exactly on an unaccepted exit with something to say, at the next stage and nowhere else |
| CriticLoop.RemindedOfLastVerdict | apps/agent-worker/src/agent_worker/pipeline.py:494-522 | It is the last verdict's, with the budget flag as the loop left it |
| RunStore.StoreRefines | apps/web/src/stores/run.ts:305-396 | After any events and frames: text plus queued delta is the unbatched text since the last stage start, exactly one flush is queued while anything waits, and each cell stream is its whole filtered history or the note and its last 32000 characters |
| RunStore.FrameShowsAll | apps/web/src/stores/run.ts:329-342 | Once the queued frame has run the displayed texts are exactly the unbatched ones |
| RunStore.KeepTailStep | apps/web/src/stores/run.ts:376-389 | Clipping as the text grows keeps what clipping the whole text at once keeps |
| RunStore.ClipIs | apps/web/src/stores/run.ts:376-389 | Up to 32000 characters all of it, beyond them the note and the last 32000 |
| RunStore.ModelsAlwaysAgreeIff | apps/web/src/stores/run.ts:305-351 | Over any run, batched and unbatched model names are equal after every event if and only if no event drops a queued name at a stage start or adds an empty name to a queue |
| RunStore.ModelsAgreeIff | apps/web/src/stores/run.ts:480-493 | The same for one step from agreeing names |
| RunStore.QueuedModelIsLost | apps/web/src/stores/run.ts:480-491 | A name followed by a stage start before the next frame is lost |
| RunStore.RunStore.OnToken | apps/web/src/stores/run.ts:305-351 | Queues the delta and schedules one flush |
| RunStore.RunStore.OnFrame | apps/web/src/stores/run.ts:329-342 | Takes every queued entry into its stream, in whatever order, and empties the queue |
| RunStore.RunStore.OnStageStart | apps/web/src/stores/run.ts:480-491 | Clears the agent's text and queue, keeps the displayed model |
| RunStore.RunStore.OnKernelOutput | apps/web/src/stores/run.ts:358-396 | Appends to one stream of one cell, clipped |
| RunStore.RunStore.DoReset | apps/web/src/stores/run.ts:190-209 | Empties streams, queue and cells, not the flush flag |
| SurgicalEdit.Editor.Surgical | apps/agent-worker/src/agent_worker/editor_tools/tools.py:322-460 | All checks in order, then every body in scope with its counted occurrences replaced and both files rewritten; a refused call changes nothing |
| SurgicalEdit.Editor.EditSection | apps/agent-worker/src/agent_worker/editor_tools/tools.py:201-240 | Replaces the abstract or the first section of that title, rewrites both files; a refused call changes nothing |
| SurgicalEdit.SectionEditsOverwrite | apps/agent-worker/src/agent_worker/editor_tools/tools.py:217-240 | A section edit touches one body, the abstract or the first section of that title: the next edit to the title overwrites it, and writing the old body back restores the paper |
| SurgicalEdit.FilesFollowMemory | apps/agent-worker/src/agent_worker/editor_tools/tools.py:82-97 | Over any calls to both tools: once one has been accepted, paper.md is the rendering of the paper in memory and the saved meta equals it; before that nothing has changed |
| SurgicalEdit.AcceptedIff | apps/agent-worker/src/agent_worker/editor_tools/tools.py:328-419 | A surgical edit is accepted exactly when its texts are given and differ, its section if any is named, and the bodies in scope hold the old text, once unless every occurrence is to be replaced |
| SurgicalEdit.ScopedEdit | apps/agent-worker/src/agent_worker/editor_tools/tools.py:350-372 | An edit limited to a section replaces in the bodies under that title, the abstract's in any case, and leaves every other body alone |
| SurgicalEdit.UniqueEditIsOneSplice | apps/agent-worker/src/agent_worker/editor_tools/tools.py:425-437 | Unique mode rewrites one body, at the first occurrence, and no other |
| SurgicalEdit.SwappedCallUndoesIff | apps/agent-worker/src/agent_worker/editor_tools/tools.py:425-437 | Every accepted unique edit to a new text is undone exactly by the swapped call, unless that finds the text more than once, if and only if the text is not empty and does not overlap itself |
| SurgicalEdit.UniqueEditSplicesPaperMd | apps/agent-worker/src/agent_worker/editor_tools/tools.py:100-112 | paper.md changes by that same one splice and nowhere else |
| SurgicalEdit.EditGrowsByCount | apps/agent-worker/src/agent_worker/editor_tools/tools.py:374-437 | An accepted edit makes exactly the counted replacements: lengths in scope change by count times the difference |
| SurgicalEdit.RenderPaperMd | apps/agent-worker/src/agent_worker/editor_tools/tools.py:100-112 | The two loops build the rendering |
| SurgicalEdit.RenderIsDocument | apps/agent-worker/src/agent_worker/editor_tools/tools.py:100-112 | The joined parts are the document: title, abstract, each section under its heading, references by number |
| SurgicalEdit.DigitsSayTheNumber | apps/agent-worker/src/agent_worker/editor_tools/tools.py:110-111 | A reference's digits are those of its number |
| Replace.ReplaceIsJoin | apps/agent-worker/src/agent_worker/editor_tools/tools.py:382-427 | Replacing is splitting at the counted occurrences and joining with the new text; joining with the old one gives the text back |
| Replace.PiecesAreFree | apps/agent-worker/src/agent_worker/editor_tools/tools.py:382-382 | No piece between the counted occurrences holds another |
| Replace.ReplaceLength | apps/agent-worker/src/agent_worker/editor_tools/tools.py:427-427 | The length changes by the same amount for each counted occurrence |
| Replace.OnePositionIff | apps/agent-worker/src/agent_worker/editor_tools/tools.py:430-432 | A count of one means a single position in every body if and only if the searched text does not overlap itself |
| FewShot.FewShotLibrary.TopK | apps/agent-worker/src/agent_worker/few_shot/loader.py:109-177 | Returns the first k of the id-deduplicated concatenation of bucket, family, sibling family and everything; nothing for k <= 0 |
| FewShot.ExactSize | apps/agent-worker/src/agent_worker/few_shot/loader.py:126-177 | Exactly min(k, number of distinct ids) results, with distinct ids |
| FewShot.BucketFirst | apps/agent-worker/src/agent_worker/few_shot/loader.py:139-140 | A bucket with enough distinct papers is the only source, best first |
| FewShot.KinFirst | apps/agent-worker/src/agent_worker/few_shot/loader.py:141-168 | While the family and its sibling hold enough, no other family is used |
| FewShot.RankedIsStable | apps/agent-worker/src/agent_worker/few_shot/loader.py:50-56 | Each stage is sorted by the shared key, holds the same exemplars, and keeps equal ones in library order |
| FewShot.BestComesFirst | apps/agent-worker/src/agent_worker/few_shot/loader.py:50-56 | Within a stage a sensitivity section comes first, then a strengths section, then the later year |
| FewShot.PartsFromLibrary | apps/agent-worker/src/agent_worker/few_shot/loader.py:44-47 | A bucket holds exactly the exemplars of its family and letter, a family stage exactly those of the family |
| FewShot.FreshOneMore | apps/agent-worker/src/agent_worker/few_shot/loader.py:129-137 | Of each id the first exemplar is kept, in order |
| FewShot.SiblingsPairUp | apps/agent-worker/src/agent_worker/few_shot/loader.py:180-185 | Which families stand in for each other |
| FewShot.FamilyByName | apps/agent-worker/src/agent_worker/few_shot/loader.py:188-199 | Which names the other families are reached by |
| FewShot.CumcmOnlyByChineseName | apps/agent-worker/src/agent_worker/few_shot/loader.py:188-199 | "cumcm" never selects its own family because it contains "mcm"; the family is reached if and only if the Chinese name is present and no other name is |
| FewShot.FewShotLibrary.constructor | apps/agent-worker/src/agent_worker/few_shot/loader.py:40-56 | Every bucket holds its exemplars, ranked |
| FewShot.Add | apps/agent-worker/src/agent_worker/few_shot/loader.py:129-137 | One stage adds unseen ids until the list is full |
| InvertedAbstract.ProseOfIndex | apps/agent-worker/src/agent_worker/tools/openalex.py:141-160 | For every word sequence, any index of it gives it back space-joined, whatever the order of the dictionary and of the position lists and whatever malformed entries stand between |
| InvertedAbstract.WordsOfProse | apps/agent-worker/src/agent_worker/tools/openalex.py:141-160 | Cutting the rebuilt prose at its spaces gives the words back in order |
| InvertedAbstract.ReconstructInvertedAbstract | apps/agent-worker/src/agent_worker/tools/openalex.py:141-160 | The nested loops and the stable sort; empty text for a missing or malformed index |
| Sorting.StrictIsSort | apps/agent-worker/src/agent_worker/tools/openalex.py:159-159 | A strictly ordered list with the same elements is the sorted list |
| Sorting.SortStable | apps/agent-worker/src/agent_worker/few_shot/loader.py:50-56 | The sort keeps elements of one rank in their order |
| Router.WithFallback | crates/gateway/src/llm/router.rs:62-130 | The result and the models tried: the first success after only retryable errors, else the first terminal error, else the last retryable one, else the configuration error |
| Router.ChainIsDistinct | crates/gateway/src/llm/router.rs:131-144 | The chain starts with the primary, repeats no model and leaves out no fallback |
| Router.BuildChain | crates/gateway/src/llm/router.rs:134-144 | The loop builds that chain |
| Router.ChainKeepsOrder | crates/gateway/src/llm/router.rs:134-144 | Fallbacks stand in their configured order, each once |
| Router.ServableKeepsOrder | crates/gateway/src/llm/router.rs:71-76 | Servable models are tried in the chain's order |
| Router.EachModelOnce | crates/gateway/src/llm/router.rs:71-92 | No model is tried twice, all but the last answered with a retryable error, and a success is the last one's answer |
| Router.SucceedsIff | crates/gateway/src/llm/router.rs:71-92 | The search succeeds if and only if some model answers and all before it fail in a retryable way |
| Router.RetryableMeansAllTried | crates/gateway/src/llm/router.rs:79-92 | A retryable error comes back only after every servable model gave one, and it is the last |
| Router.TerminalErrorIsLast | crates/gateway/src/llm/router.rs:86-92 | An error that comes back is the last tried model's; with nothing servable it names the primary |
| Router.FallsThroughIff | crates/gateway/src/llm/providers/mod.rs:40-48 | A second model answers exactly after a network error, a timeout or one of the listed HTTP codes |
| Router.NothingTriedIff | crates/gateway/src/llm/router.rs:45-50 | Nothing is tried if and only if no provider with a key supports any model of the chain |
| Router.Resolve | crates/gateway/src/llm/router.rs:45-50 | The first provider that supports the model and has a key |
| Forward.OneModelServes | crates/gateway/src/routes/llm.rs:160-189 | Once a stream has opened no other model is tried: frames and any cost are those of the last model tried |
| Forward.AnyVisit | crates/gateway/src/routes/llm.rs:231-304 | However often the client polls and wherever it leaves, also in the middle of a poll: it gets a prefix of the chunks in order followed by one error or one `[DONE]`; tokens fanned out are those of the chunks it got; one cost-recording attempt is made if and only if a stream that ends cleanly was read to its end, so a cost without `[DONE]` means that the client left during the recording |
| Forward.EndMarkMakesNoDifference | crates/gateway/src/llm/providers/openai_compat.rs:186-196 | A connection that ends without `[DONE]` cannot be told from one that sent it |
| Forward.ErrorsEndItems | crates/gateway/src/llm/providers/openai_compat.rs:183-201 | Only the last item of an adapter's stream can be an error |
| Forward.OpenAIStream.Next | crates/gateway/src/llm/providers/openai_compat.rs:180-204 | One step of the adapter's unfold: the next of the items still to come |
| Forward.ItemsUpToEnd | crates/gateway/src/llm/providers/openai_compat.rs:183-201 | Those items are the parse of each event up to the first that is a transport error, an end mark or no chunk, and then its error if it is one |
| Forward.ForwardStream.Poll | crates/gateway/src/routes/llm.rs:231-303 | One step of the forwarding unfold, which never polls an ended upstream again |
| Forward.ServeStream | crates/gateway/src/routes/llm.rs:160-189 | The whole path: fallback, then as many polls as the client makes, the last perhaps abandoned |
| Forward.FramesOfEvents | crates/gateway/src/routes/llm.rs:231-304 | Whenever a stream is served, frame i is the chunk of the serving model's i-th event, then comes that model's error or the end mark, and nothing more |
| Forward.TokensAreTheText | crates/gateway/src/routes/llm.rs:243-264 | With a run the tokens are the chunks' text in order without empty pieces, without one there are none |
| Forward.UsageIsTheLast | crates/gateway/src/routes/llm.rs:235-239 | The usage charged is the last any chunk carried, and none if none did |

## Left out

- Redis, Postgres, HTTP, the file system, pandoc, tectonic and the kernels: atomic steps or parameters only.
- Clocks: the 200 ms hello window, retry delays and debouncing appear as free choices, not as durations.
- Event entries without a number or with an unreadable payload; the producers modelled here always number theirs.
- Token order across spawned XADD tasks: a number is not the position of a chunk upstream, and nothing here says so.
- Anthropic bodies: the body modelled is the OpenAI-compatible one.
- Prices: the delta of a call is an input of the ledger machine; money is exact, floating point is not modelled.
- The 32-bit depth counter of brace matching; texts are sequences of characters, not of bytes or UTF-16 units.
- Formatting of a figure's width, the parser of one stream frame, the glyph-warning filter, the upper-casing of a
  problem letter, KaTeX and the reminder's wording: parameters.
- The image markup the worker writes for a placeholder: only where its pattern matches is modelled.
- SpendBound: takes a successful tracker read to be what the calls really cost; a lost Redis mirror is the subject of CostLedger.
- Runs of the critic loops inside the whole pipeline, the audit gate and cancellation.
- In the run store: statuses, figures, usage, the event feed and cell timings. The output events carry filtered text.
- In the editor: tools other than the two paper edits; bodies that are not text; diff windows and messages.
- Equality of the editor's rendering with the pipeline's: the code does not keep it.
- Loading the few-shot index from JSONL, and the prompt block written from it.
- The non-stream path beyond its cache and fallback; auth, stats, SQL lifecycles, BM25, embeddings, views.
