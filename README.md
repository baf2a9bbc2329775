# null: a verified model of the world simulator's orchestration core

null runs LLM-driven worlds. Each world has agents grouped in factions. The agents hold conversations, write a wiki and reach consensus on claims. A FastAPI backend runs the simulation and pushes events over WebSocket to a React client. This project models in Dafny the deterministic orchestration of that backend, together with the small helpers around it, and proves properties of the model. The database, the LLM and randomness are parameters throughout.

What is modelled, module by module:

- **Orchestration layer**
  - `TimeDilation`: the epoch clock. It has a tick counter that rolls over into the next epoch and emits an `epoch.transition` envelope when it does.
  - `Consensus`: the consensus engine. Each world has a claim list, with propose, vote, quorum, and check-and-remove.
  - `Herald`: a per-world event buffer. `announce` summarises the buffer and then empties it.
  - `RuntimeMetrics`: the loop and runner records that the `note_*` recorders update, their snapshots, and the merge with defaults.
  - `Ops`: the threshold rules that derive alerts, and the sorting and counting done when the ops snapshot is assembled.
  - `Runner`: the runner's tick counters, success rate and scheduling delay, the rolling summary buffer, and topic extraction.
  - `Worlds`: the runner registry, the genesis-task set, the guards of the start and stop routes, and the status that each route writes.
  - `Broadcast`: fan-out of an envelope to a world's observers, with dead connections pruned.
- **Helpers**
  - `Memory`: bounded agent memory and the prompt context built from it.
  - `Multiverse`: resonance pair aggregation and neighbour ranking, plus global search scoring.
  - `Mentions`: entity-mention matching.
  - `Export`: the CSV, Markdown and JSON Lines exporters. The CSV follows the quoting rules 5-7 of RFC 4180 section 2, with LF line ends.
  - `Json`: the `json.dumps` output that the exporters write, and its string escaping.
  - `LlmRouter`: role routing, the budget fallback, the error-string contract of `generate_text`, and the fence and bracket extraction of `generate_json`.
  - `Conversation`: the rounds, speakers and targets of one conversation turn, participant selection, and the strength clamp.
  - `Conversations`: the conversation list with participants resolved, and the merged, sorted and truncated feed.
  - `Translator`: the guards of the Korean translator and the "mark processed" rules of its batches.
  - `Genesis`: progress-step numbering, persona batching, tag normalisation, and the status sequence of world creation.
  - `LoadTest`: the load-test statistics, the endpoint list and request plan, the alerts and exit code, and the trend report.
  - `SimulationStore`: the browser's event store and its actions.
- **Shared pieces**
  - `Rows`: the database rows that the code updates in place.
  - `Envelopes`: the WebSocket envelope.
  - `Sorting`: Python's stable `list.sort`.
  - `Text`: Python's `str` operations and slices.
  - `Wrappers`: `Option`.

Behaviours of the code as written that the model exhibits:

- `populate_world` numbers its progress steps from the number of factions it was asked for, but iterates over the factions the LLM returned.
  - The step numbers rise strictly only when the LLM returns no more factions than requested.
  - They stay within `total_steps` only when it returns at most two more (`Genesis.ProgressMonotone`).
- Starting a world by hand while its genesis is still running registers a runner. When the genesis finishes, it replaces that runner with a new one and never stops the first (`Worlds.StartDuringGenesis`).
- When no load-test request completed, the success rate is 0 and lies below the 0.98 target. The run then raises an alert and exits with code 1 unless `--no-fail-on-alert` is given.
- A history row whose `captured_at` is null is listed in the trend table as `None` rather than `n/a`.
- The frontend treats an empty tag array as truthy and stores it as a world's tags.
- One extraction pass records a mention for every matching entity. If two entities of one kind share an id, both matches are recorded.
- The translator's strata query has no ordering, so the model takes table order.
- The translator marks a row processed even when its translation fails, by storing the original text in the Korean field.
- In `_generate_world_tags`, a malformed tag weight raises and ends the loop. Tags already added are kept.

## Model

| member | source | states |
|---|---|---|
| TimeDilation.ResolveFallsBack | backend/src/null_engine/core/time_dilation.py:14-15 | a constructor argument of None or 0 falls back to the configured 10 ticks per epoch; any other value is kept |
| TimeDilation.Advance | backend/src/null_engine/core/time_dilation.py:17-29 | the tick is incremented first; the epoch rolls over (tick 0, epoch + 1, result true) exactly when the new tick reaches ticks_per_epoch, otherwise the epoch is unchanged and the result false |
| TimeDilation.AdvanceKeepsRange | backend/src/null_engine/core/time_dilation.py:19-24 | 0 <= tick < ticks_per_epoch is preserved by every advance, and the epoch grows by 0 or 1 |
| TimeDilation.RunWithinEpoch | backend/src/null_engine/core/time_dilation.py:19-29 | advances that stay inside an epoch only count the tick up and all return false |
| TimeDilation.FullEpoch | backend/src/null_engine/core/time_dilation.py:19-29 | from tick 0, ticks_per_epoch - 1 advances return false and the next returns true, landing on tick 0 of the next epoch |
| TimeDilation.RunSplit | backend/src/null_engine/core/time_dilation.py:19-29 | n + 1 advances are n advances followed by one more |
| TimeDilation.DefaultEpochIsTenTicks | backend/src/null_engine/config.py:28 | with the default setting, nine advances from tick 0 return false and the tenth returns true with tick 0 |
| TimeDilation.TimeDilation.constructor | backend/src/null_engine/core/time_dilation.py:14-15 | the engine's ticks_per_epoch is the argument or the configured fallback |
| TimeDilation.TimeDilation.AdvanceTick | backend/src/null_engine/core/time_dilation.py:17-50 | the world's tick and epoch become Advance of the old ones; one epoch.transition envelope (new epoch, agent count) is broadcast exactly when the epoch rolled over; nothing else of the world changes |
| Consensus.TwoFactionsIffDisagreement | backend/src/null_engine/core/consensus.py:66-67 | "two or more factions" among the ballots holds exactly when two ballots carry different factions |
| Consensus.CastOn | backend/src/null_engine/core/consensus.py:59-70 | a ballot is appended only when the agent has not voted yet; text, proposer and faction are kept; the entry becomes canon exactly when it has at least three ballots from at least two factions |
| Consensus.CastKeepsDistinct | backend/src/null_engine/core/consensus.py:61-63 | no agent appears twice among an entry's ballots after a vote, and the voter is among them |
| Consensus.FirstMatch | backend/src/null_engine/core/consensus.py:58-59 | the vote targets the first entry whose text matches and which is still proposed; None exactly when no such entry exists |
| Consensus.VoteTouchesFirstMatchOnly | backend/src/null_engine/core/consensus.py:56-71 | a vote changes only the first matching proposed entry; the list length and every other entry are unchanged, and with no match the list is unchanged |
| Consensus.VoteAnswer | backend/src/null_engine/core/consensus.py:65-71 | the answer is None with no matching proposed entry, "canon" exactly when the entry voted on reaches quorum, "proposed" otherwise |
| Consensus.VoteKeepsWellFormed | backend/src/null_engine/core/consensus.py:56-71 | every entry keeps its proposer's ballot first, distinct voters, and canon status exactly at quorum |
| Consensus.CanonIsFinal | backend/src/null_engine/core/consensus.py:59 | a vote never changes an entry that is already canon |
| Consensus.ThreeVotesTwoFactions | backend/src/null_engine/core/consensus.py:43-70 | a proposal followed by votes of two more agents, one of another faction, makes the claim canon on the second vote and not before |
| Consensus.ReachedAll | backend/src/null_engine/core/consensus.py:79-82 | one consensus.reached envelope (claim text, ballot count) per reported claim, in order |
| Consensus.ReconcileSplits | backend/src/null_engine/core/consensus.py:76-84 | every reported entry is canon, every kept entry is proposed, and together they account for the whole list |
| Consensus.ReconcileIdempotent | backend/src/null_engine/core/consensus.py:84 | after a reconciliation nothing is left to report, and reconciling again keeps the same list |
| Consensus.NoCanonNothingReported | backend/src/null_engine/core/consensus.py:76-84 | a list without canon entries reports nothing and is kept whole |
| Consensus.RemainingWellFormed | backend/src/null_engine/core/consensus.py:84 | removing the canon entries keeps the list invariant |
| Consensus.ProposeNeverCanonizes | backend/src/null_engine/core/consensus.py:43-54 | proposing alone never creates canon: a list without canon entries still has none and check_consensus reports nothing |
| Consensus.ConsensusEngine.constructor | backend/src/null_engine/core/consensus.py:30-31 | every world starts without claims |
| Consensus.ConsensusEngine.ProposeClaim | backend/src/null_engine/core/consensus.py:43-54 | the world's list, created when missing, gets the new entry (proposer's own ballot, status proposed) appended; other worlds unchanged |
| Consensus.ConsensusEngine.Vote | backend/src/null_engine/core/consensus.py:56-71 | the answer and the new list are those of VoteOn; a world without a list is not created |
| Consensus.ConsensusEngine.CheckConsensus | backend/src/null_engine/core/consensus.py:73-85 | returns the canon entries in order, broadcasts one envelope for each, and keeps only the proposed entries |
| Consensus.CollectCanon | backend/src/null_engine/core/consensus.py:73-80 | the loop collects the canon entries in order and one consensus.reached envelope for each |
| Herald.Label | backend/src/null_engine/core/herald.py:35 | an event is listed by its description, else by its type, else as "unknown event" |
| Herald.ListedLines | backend/src/null_engine/core/herald.py:34-36 | the prompt lists "- label" for the last five events (all when fewer), oldest first |
| Herald.AnnounceEmptyIsNoOp | backend/src/null_engine/core/herald.py:30-32 | an empty or missing buffer makes no model call, broadcasts nothing and changes nothing |
| Herald.AnnounceFlushes | backend/src/null_engine/core/herald.py:34-49 | a non-empty buffer gives one herald.announcement carrying the narration and the full event count, and the buffer is emptied |
| Herald.AnnounceTwiceIsNoOp | backend/src/null_engine/core/herald.py:29-49 | a second announce straight after the first does nothing |
| Herald.Herald.constructor | backend/src/null_engine/core/herald.py:21-22 | all buffers start empty |
| Herald.Herald.BufferEvent | backend/src/null_engine/core/herald.py:24-27 | the event is appended to the world's buffer, created when missing; other worlds unchanged |
| Herald.Herald.Announce | backend/src/null_engine/core/herald.py:29-50 | the prompt, broadcast and new buffers are those of AnnounceOn |
| RuntimeMetrics.LoopRecorders | backend/src/null_engine/services/runtime_metrics.py:18-84 | "started" sets running and the start time and keeps the restart count; "cancelled" keeps it; "exited" and "error" add exactly one; "error" stamps the time and keeps at most the first 400 characters of the text; the name never changes |
| RuntimeMetrics.FirstStartHasNoRestarts | backend/src/null_engine/services/runtime_metrics.py:20-32 | a loop seen for the first time by note_loop_started is running with restart count 0 |
| RuntimeMetrics.TickNotedStatus | backend/src/null_engine/services/runtime_metrics.py:133-141 | a runner is "running" exactly when the tick succeeded and "degraded" otherwise; totals, failures and the last duration are copied from the call |
| RuntimeMetrics.AverageIsMean | backend/src/null_engine/services/runtime_metrics.py:143-148 | when the previous ticks_total counts exactly the durations already averaged, the new average is the arithmetic mean of those durations and the new one; a first tick stores its own duration |
| RuntimeMetrics.MergeDefaults | backend/src/null_engine/services/runtime_metrics.py:168-171 | the merged record has the keys of both; the metric's values win, defaults fill only missing keys |
| RuntimeMetrics.MergeKeepsCompleteRecord | backend/src/null_engine/services/runtime_metrics.py:168-171 | a record that already has every default key comes back unchanged |
| RuntimeMetrics.DefaultsNeverShowThrough | backend/src/null_engine/services/runtime_metrics.py:20-30 | every recorded loop and runner record already has all default keys, so merging defaults into it changes nothing |
| RuntimeMetrics.TouchKeepsOrder | backend/src/null_engine/services/runtime_metrics.py:20 | the insertion order of the metrics dict is kept: a new key goes last, an existing key keeps its place |
| RuntimeMetrics.InOrder | backend/src/null_engine/services/runtime_metrics.py:151-158 | a snapshot lists one record per key in insertion order |
| RuntimeMetrics.OrderCardinality | backend/src/null_engine/services/runtime_metrics.py:151-158 | a snapshot has exactly as many records as the dict has keys |
| RuntimeMetrics.MetricsStore.constructor | backend/src/null_engine/services/runtime_metrics.py:10-11 | both metric stores start empty |
| RuntimeMetrics.MetricsStore.PutLoop | backend/src/null_engine/services/runtime_metrics.py:20 | stores one loop record under its name, keeping insertion order and the runner records |
| RuntimeMetrics.MetricsStore.PutRunner | backend/src/null_engine/services/runtime_metrics.py:89 | stores one runner record under its world, keeping insertion order and the loop records |
| RuntimeMetrics.MetricsStore.NoteLoopStarted | backend/src/null_engine/services/runtime_metrics.py:18-32 | the loop's record (created with status running when missing) becomes Started; nothing else changes |
| RuntimeMetrics.MetricsStore.NoteLoopExited | backend/src/null_engine/services/runtime_metrics.py:35-49 | the loop's record (created with status exited when missing) becomes Exited |
| RuntimeMetrics.MetricsStore.NoteLoopCancelled | backend/src/null_engine/services/runtime_metrics.py:52-65 | the loop's record (created with status cancelled when missing) becomes Cancelled |
| RuntimeMetrics.MetricsStore.NoteLoopError | backend/src/null_engine/services/runtime_metrics.py:68-84 | the loop's record (created with status error when missing) becomes Errored |
| RuntimeMetrics.MetricsStore.NoteRunnerStatus | backend/src/null_engine/services/runtime_metrics.py:87-104 | the runner's record (created with the given status when missing) gets the status and the time |
| RuntimeMetrics.MetricsStore.NoteRunnerTick | backend/src/null_engine/services/runtime_metrics.py:107-148 | the runner's record (created as running when missing) becomes TickNoted |
| RuntimeMetrics.MetricsStore.Clear | backend/src/null_engine/services/runtime_metrics.py:161-165 | both stores are emptied |
| RuntimeMetrics.MetricsStore.LoopSnapshot | backend/src/null_engine/services/runtime_metrics.py:151-153 | one copy of each loop record, in insertion order |
| RuntimeMetrics.MetricsStore.RunnerSnapshot | backend/src/null_engine/services/runtime_metrics.py:156-158 | one copy of each runner record, in insertion order |
| Ops.CountCodeAppend | backend/src/null_engine/api/routes/ops.py:29-119 | alert counts add up over the concatenated rule outputs |
| Ops.LoopAlertsCount | backend/src/null_engine/api/routes/ops.py:39-62 | each loop in "error" yields one loop_error and each "exited" loop one loop_exited, and no other loop yields anything |
| Ops.RunnerAlertsCount | backend/src/null_engine/api/routes/ops.py:63-78 | one runner_degraded per runner with at least the minimum ticks and a success rate below the threshold, and nothing else |
| Ops.PartsCount | backend/src/null_engine/api/routes/ops.py:29-119 | the count of any code in the whole list is the sum over the five rules |
| Ops.ObjectRulesCodes | backend/src/null_engine/api/routes/ops.py:39-78 | loop and runner rules never raise a queue or mismatch code |
| Ops.BacklogRule | backend/src/null_engine/api/routes/ops.py:81-95 | translator_backlog is raised exactly when the three pending counters sum to at least the threshold (50) |
| Ops.GenesisRule | backend/src/null_engine/api/routes/ops.py:97-105 | genesis_backlog is raised exactly when at least the threshold number (5) of worlds are generating |
| Ops.MismatchRule | backend/src/null_engine/api/routes/ops.py:107-118 | runner_mismatch is raised exactly when some world is "running" and no runner is active |
| Ops.ObjectRules | backend/src/null_engine/api/routes/ops.py:39-78 | the whole list holds one loop_error per errored loop and one runner_degraded per degraded runner |
| Ops.AlertsInRuleOrder | backend/src/null_engine/api/routes/ops.py:29-119 | alerts come out loops first, then runners, translator backlog, genesis backlog and mismatch |
| Ops.HealthySnapshotHasNoAlerts | backend/tests/test_ops_api_smoke.py:55-117 | the healthy fixture (one running loop, one runner with 12 ticks at full success, one active runner, small queues) raises no alert |
| Ops.DegradedSnapshotRaisesAllCodes | backend/tests/test_ops_api_smoke.py:120-179 | the degraded fixture raises all five codes, in rule order |
| Ops.ErroredLoopRaisesCritical | backend/src/null_engine/api/routes/ops.py:40-52 | a loop recorded through note_loop_error raises one critical loop_error naming the loop |
| Ops.SnapshotOrdering | backend/src/null_engine/api/routes/ops.py:163-185 | the snapshot lists every loop and runner record once, loops ordered by name and runners by world id hex |
| Ops.ActiveRunners | backend/src/null_engine/api/routes/ops.py:187 | the active count never exceeds the number of registered runners |
| Ops.ActiveRunnersZero | backend/src/null_engine/api/routes/ops.py:187 | no runner is active exactly when no registered runner is running |
| Runner.TickDelay | backend/src/null_engine/core/runner.py:52-56 | the first tick has no delay; later ticks report how far the start is past the previous start plus five seconds, never negative |
| Runner.SuccessRateBounds | backend/src/null_engine/core/runner.py:84-88 | the reported rate lies in [0, 1], is 1 exactly when no tick failed and 0 exactly when every tick failed |
| Runner.TopicOf | backend/src/null_engine/core/runner.py:177-178 | no topic is read from a summary without "] " |
| Runner.TopicRoundTrip | backend/src/null_engine/core/runner.py:134-178 | reading the topic back from "[E{epoch}T{tick}] {topic}: {n} messages" gives the topic whenever it has no colon |
| Runner.BuiltinTopicsRecovered | backend/src/null_engine/core/runner.py:134-178 | every built-in conversation topic is read back unchanged from its summary |
| Runner.RecentTopics | backend/src/null_engine/core/runner.py:174-179 | the topic set holds exactly the topics read from the last ten summaries |
| Runner.WikiTopics | backend/src/null_engine/core/runner.py:181 | at most three distinct topics, all from the recent topic set, and three whenever there are that many |
| Runner.RunTicksCounts | backend/src/null_engine/core/runner.py:74-108 | without a missing world every pass runs one tick: the tick count grows by the number of passes, failures by the failed ticks, failed ticks do not end the loop, and each report has failures <= ticks and a rate in [0, 1] |
| Runner.NothingAfterMissing | backend/src/null_engine/core/runner.py:63-66 | once the world is missing the loop has ended and later passes never run |
| Runner.MissingWorldEndsLoop | backend/src/null_engine/core/runner.py:61-66 | a missing world after k good passes gives exactly k tick reports, then "missing_world", and nothing more |
| Runner.LoopAlwaysStops | backend/src/null_engine/core/runner.py:45-121 | however the loop ends it reports "running" first and "stopped" last and leaves the flag cleared |
| Runner.SummaryBuffer | backend/src/null_engine/core/runner.py:132-187 | a tick inside an epoch appends one summary exactly when the turn had messages; an epoch change empties the buffer; a tick that raised before the summary leaves it alone |
| Runner.SimulationRunner.constructor | backend/src/null_engine/core/runner.py:24-32 | a new runner is not running, has no summaries, no last start and zero counters |
| Runner.SimulationRunner.Start | backend/src/null_engine/core/runner.py:34-37 | sets the running flag and reports "starting" |
| Runner.SimulationRunner.Stop | backend/src/null_engine/core/runner.py:39-43 | clears the running flag and reports "stopping" |
| Runner.SimulationRunner.RunLoop | backend/src/null_engine/core/runner.py:45-121 | the new state and the metric reports are those of RunLoopSpec over the given passes |
| Runner.SimulationRunner.Tick | backend/src/null_engine/core/runner.py:50-108 | one pass with a world updates the start time, the counters and the summary buffer and reports the tick exactly as Iterate says |
| Worlds.Registry.constructor | backend/src/null_engine/api/routes/worlds.py:16-17 | no runner and no genesis task is registered at first |
| Worlds.Registry.RunningFlags | backend/src/null_engine/api/routes/worlds.py:16 | one running flag per registered world, read from its runner |
| Worlds.Registry.CreateWorld | backend/src/null_engine/api/routes/worlds.py:86-101 | the row is created in status "generating", a genesis task is registered, and the runners are untouched |
| Worlds.Registry.BackgroundGenesis | backend/src/null_engine/api/routes/worlds.py:49-83 | after population a fresh running runner replaces whatever was registered and an existing row becomes "running"; a failure marks an existing row "error"; the background job is always removed |
| Worlds.Registry.StartSimulation | backend/src/null_engine/api/routes/worlds.py:113-129 | 404 without a row and 409 while the registered runner runs, changing nothing; otherwise a fresh running runner is registered, the row becomes "running", and the answer is "started" |
| Worlds.Registry.StopSimulation | backend/src/null_engine/api/routes/worlds.py:132-145 | 409 unless the registered runner is running, changing nothing; otherwise that runner is stopped, an existing row becomes "paused", and the answer is "stopped"; no other runner changes |
| Worlds.CreateStartStop | backend/tests/test_worlds_api_smoke.py:80-176 | create, start, stop answer "generating", "started", "stopped" and leave the row "paused" |
| Worlds.GuardsRefuse | backend/src/null_engine/api/routes/worlds.py:117-136 | a second start answers 409, stopping an idle world 409, starting a world without a row 404 |
| Worlds.StartDuringGenesis | backend/src/null_engine/api/routes/worlds.py:59-125 | a world started by hand while its genesis runs ends with two running runners, the first no longer registered |
| Broadcast.ConnectDisconnect | backend/src/null_engine/ws/handler.py:19-29 | a joining socket is an observer of its world, a leaving one is not, a join followed by a leave restores the world's observers, and other worlds are untouched |
| Broadcast.BroadcastPrunesExactlyFailed | backend/src/null_engine/ws/handler.py:33-48 | after a broadcast exactly the observers whose send failed are gone, the others remain, other worlds keep theirs, and a world without observers is left as it was |
| Broadcast.FailedSendAfterConnect | backend/src/null_engine/ws/handler.py:19-48 | a socket that joined and whose send then fails is no longer an observer, and nobody else is removed |
| Broadcast.Hub.constructor | backend/src/null_engine/ws/handler.py:13 | the registry starts empty |
| Broadcast.Hub.Connect | backend/src/null_engine/ws/handler.py:18-19 | the socket is added to the world's observer set |
| Broadcast.Hub.Disconnect | backend/src/null_engine/ws/handler.py:28-29 | the socket is discarded from the world's observer set |
| Broadcast.Hub.Broadcast | backend/src/null_engine/ws/handler.py:33-48 | the one envelope is sent once to each observer of the world, and the failed ones are pruned |
| Broadcast.SendAll | backend/src/null_engine/ws/handler.py:39-44 | the one envelope is sent exactly once to every observer, and the failed ones collected are exactly the observers whose send fails |
| Memory.Entries | backend/src/null_engine/agents/memory.py:24 | one short-term entry per message, in order |
| Memory.WindowKeepsNewest | backend/src/null_engine/agents/memory.py:25-32 | a bounded tier keeps the last `limit` items of old plus new: never more than the limit, the newly added items last |
| Memory.Section | backend/src/null_engine/agents/memory.py:42-60 | an empty tier adds no line; otherwise its header and one line per item, each no longer than the indent plus the width |
| Memory.ItemLines | backend/src/null_engine/agents/memory.py:45-60 | each item line is the indent followed by the item cut to the width |
| Memory.Contents | backend/src/null_engine/agents/memory.py:46 | the content of each entry, in order |
| Memory.Truncate | backend/src/null_engine/agents/memory.py:64-68 | a context within the estimate is kept; one over a positive budget keeps its last 4 * max_tokens characters |
| Memory.EmptyMemoryContext | backend/src/null_engine/agents/memory.py:70 | an agent without any memory gets "(no prior context)" |
| Memory.ContextShape | backend/src/null_engine/agents/memory.py:40-60 | one header line per non-empty tier, followed by at most 10 messages, 5 summaries and 5 facts |
| Memory.ContextTruncation | backend/src/null_engine/agents/memory.py:62-70 | a context over budget is exactly the last 4 * max_tokens characters of the joined lines |
| Memory.TruncateTail | backend/src/null_engine/agents/memory.py:66-68 | the cut of a text over a positive budget is its last 4 * max_tokens characters and never empty |
| Memory.ContextWithinBudget | backend/src/null_engine/agents/memory.py:62-70 | a non-empty memory within budget gives the joined lines themselves |
| Memory.AppendSection | backend/src/null_engine/agents/memory.py:44-46 | the header and then one line per item are appended to the parts |
| Memory.AppendItems | backend/src/null_engine/agents/memory.py:45-46 | the loop appends one item line per item, in order, after the parts |
| Memory.AppendTier | backend/src/null_engine/agents/memory.py:41-60 | an empty tier appends nothing; otherwise its section is appended |
| Memory.MemoryManager.constructor | backend/src/null_engine/agents/memory.py:15-21 | all three tiers start empty |
| Memory.MemoryManager.AddShortTerm | backend/src/null_engine/agents/memory.py:23-27 | the agent's window becomes the last 20 of its old entries plus the new ones; other agents and tiers unchanged |
| Memory.MemoryManager.AddMidTerm | backend/src/null_engine/agents/memory.py:29-32 | the summary is appended, the last 50 are kept, and it is the last one; other agents and tiers unchanged |
| Memory.MemoryManager.AddLongTerm | backend/src/null_engine/agents/memory.py:34-35 | the fact is appended and nothing is ever dropped; other agents and tiers unchanged |
| Memory.MemoryManager.BuildContext | backend/src/null_engine/agents/memory.py:37-70 | the context built line by line is the one Context defines from the agent's three tiers |
| Multiverse.UnorderedPair | backend/src/null_engine/api/routes/multiverse.py:29-32 | the key is the two ids in the order of their string forms, and it is (a, b) or (b, a) |
| Multiverse.PairSymmetric | backend/src/null_engine/api/routes/multiverse.py:29-32 | A-B and B-A give the same key |
| Multiverse.PairKey | backend/src/null_engine/api/routes/multiverse.py:27-30 | two rows share a key exactly when they join the same two worlds, in either direction |
| Multiverse.OrderedPairIsKey | backend/src/null_engine/api/routes/multiverse.py:29-32 | a pair already in string order is its own key |
| Multiverse.AggregateSound | backend/src/null_engine/api/routes/multiverse.py:154-240 | the metrics dict holds, for each key met, the number of rows and the sum of strengths carrying it, and nothing for keys never met; its insertion order lists each key once |
| Multiverse.OrderSize | backend/src/null_engine/api/routes/multiverse.py:154-160 | the dict never has more keys than rows folded in |
| Multiverse.AggregateKeys | backend/src/null_engine/api/routes/multiverse.py:154-160 | every key of the dict was carried by some row |
| Multiverse.Tabulate | backend/src/null_engine/api/routes/multiverse.py:154-240 | the aggregation loop builds exactly the dict Aggregate defines |
| Multiverse.Candidates | backend/src/null_engine/api/routes/multiverse.py:162-249 | the filter keeps no more candidates than the dict has keys |
| Multiverse.CandidatesSound | backend/src/null_engine/api/routes/multiverse.py:162-249 | each candidate is a key of the dict with its average strength and count, reaching both minima |
| Multiverse.CandidatesComplete | backend/src/null_engine/api/routes/multiverse.py:162-249 | each key that reaches both minima is a candidate |
| Multiverse.CandidatesDistinct | backend/src/null_engine/api/routes/multiverse.py:162-175 | the candidates follow the dict's insertion order, each a key of it, so no key appears twice |
| Multiverse.StrongerFirstPreorder | backend/src/null_engine/api/routes/multiverse.py:176-254 | ordering by (strength, count) descending is a total preorder |
| Multiverse.RankSound | backend/src/null_engine/api/routes/multiverse.py:176-255 | the ranking is ordered strongest first and holds exactly the smaller of `limit` and the number of candidates, each one a candidate; no candidate cut off is stronger than one kept, all are kept when there are no more than `limit`, and distinct keys stay distinct |
| Multiverse.CollectCandidates | backend/src/null_engine/api/routes/multiverse.py:162-175 | the loop collects exactly the candidates Candidates defines |
| Multiverse.PairEntries | backend/src/null_engine/api/routes/multiverse.py:154-155 | one (pair key, strength) entry per row |
| Multiverse.Between | backend/src/null_engine/api/routes/multiverse.py:143-150 | the rows joining two worlds in either direction, never more than the query returned |
| Multiverse.PairTotals | backend/src/null_engine/api/routes/multiverse.py:154-160 | the key of a pair counts and sums exactly the rows between its two worlds, in either direction |
| Multiverse.WorldsSimilarityMap | backend/src/null_engine/api/routes/multiverse.py:133-177 | the two loops, the sort and the cut compute MapLinks |
| Multiverse.MapLinksSound | backend/src/null_engine/api/routes/multiverse.py:152-177 | every link is a key in string order whose count and strength are the number and average strength of the rows between its worlds, reaching both minima; the links are ranked strongest first, hold each pair once, number at most link_limit, and no qualifying pair left out is stronger than a link kept |
| Multiverse.LinksOutrankLeftOut | backend/src/null_engine/api/routes/multiverse.py:166-177 | no pair with enough rows and a high enough average that was cut from the links is stronger than a link kept |
| Multiverse.LinkTotals | backend/src/null_engine/api/routes/multiverse.py:152-175 | a link's key is in string order, and its count and strength are the number and average strength of the rows between its two worlds |
| Multiverse.LeftOutCandidate | backend/src/null_engine/api/routes/multiverse.py:152-177 | a qualifying pair whose key is not among the links is a candidate the cut to link_limit left out |
| Multiverse.QualifyingCandidate | backend/src/null_engine/api/routes/multiverse.py:152-175 | a pair with enough rows between its worlds and a high enough average is a candidate with that count and average |
| Multiverse.MapLinksComplete | backend/src/null_engine/api/routes/multiverse.py:152-177 | when there are no more rows than link_limit, or fewer links than link_limit, every pair with enough rows and a high enough average is a link, with its count and average strength |
| Multiverse.LinkedWorlds | backend/src/null_engine/api/routes/multiverse.py:179-183 | the linked world ids are exactly both ends of every link |
| Multiverse.NeighborEntries | backend/src/null_engine/api/routes/multiverse.py:234-235 | one (other end, strength) entry per row |
| Multiverse.NeighborTotals | backend/src/null_engine/api/routes/multiverse.py:234-240 | a neighbour other than the world counts and sums the rows between the two |
| Multiverse.Resolve | backend/src/null_engine/api/routes/multiverse.py:257-275 | only ranked neighbours with a world row are returned, never more than were ranked, each with its ranked strength and count |
| Multiverse.ResolveComplete | backend/src/null_engine/api/routes/multiverse.py:262-275 | every ranked neighbour with a world row is returned with its seed prompt, status, strength and count, so when every ranked id has a row all are returned |
| Multiverse.ResolveOrdered | backend/src/null_engine/api/routes/multiverse.py:262-275 | dropping the ranked ids without a world row keeps the strongest-first order and the ids distinct |
| Multiverse.WorldNeighbors | backend/src/null_engine/api/routes/multiverse.py:209-275 | the aggregation loop, the filter loop, the sort and the resolution compute Neighbors |
| Multiverse.ResolveWorlds | backend/src/null_engine/api/routes/multiverse.py:262-275 | the last loop computes Resolve |
| Multiverse.NeighborsSound | backend/src/null_engine/api/routes/multiverse.py:209-275 | at most `limit` neighbours, strongest first, each a distinct world with a row, reaching min_strength, counting and averaging the rows between it and the world |
| Multiverse.NeighborCandidate | backend/src/null_engine/api/routes/multiverse.py:229-247 | every other world joined to the world by at least one row whose average strength reaches min_strength is a candidate for the ranking, with its row count and average strength |
| Multiverse.NeighborsComplete | backend/src/null_engine/api/routes/multiverse.py:209-275 | when the rows fit within `limit`, every such neighbour that has a world row is returned with its seed prompt, status, average strength and row count |
| Multiverse.NeighborsOutrankLeftOut | backend/src/null_engine/api/routes/multiverse.py:209-275 | no such neighbour with a world row that the cut to `limit` left out is stronger (by average, then count) than one returned |
| Multiverse.WikiHit | backend/src/null_engine/api/routes/multiverse.py:103-113 | a wiki hit scores 1.0 exactly when the query occurs in the title ignoring case and 0.5 otherwise; its snippet has at most 150 characters |
| Multiverse.AgentHit | backend/src/null_engine/api/routes/multiverse.py:118-127 | an agent hit always scores 0.8 and is titled with the agent's name |
| Multiverse.Hits | backend/src/null_engine/api/routes/multiverse.py:103-127 | wiki hits then agent hits, one per row, each with one of the three scores |
| Multiverse.GlobalSearch | backend/src/null_engine/api/routes/multiverse.py:89-129 | the two loops, the sort and the cut compute Search |
| Multiverse.SearchSound | backend/src/null_engine/api/routes/multiverse.py:89-129 | exactly the smaller of 20 and the number of hits, best score first, each one a hit of the two queries with one of the three scores; no hit left out scores higher than one kept |
| Mentions.Normalize | backend/src/null_engine/services/mention_extractor.py:24-25 | the normalized text is no longer than the input, and empty exactly when the lower-cased input is blank |
| Mentions.ShortNeedleNeverMatches | backend/src/null_engine/services/mention_extractor.py:28-34 | a name shorter than two characters once normalized, or a blank one, matches no text |
| Mentions.NameMatchesItself | backend/src/null_engine/services/mention_extractor.py:28-34 | a name of two or more characters matches itself |
| Mentions.MatchIgnoresCase | backend/src/null_engine/services/mention_extractor.py:24-34 | lower-casing either side never changes whether a name matches |
| Mentions.MatchesSound | backend/src/null_engine/services/mention_extractor.py:100-145 | one loop yields exactly the entities of its kind whose name matches, whose (kind, id) is not already recorded and that are not the skipped page, each with the loop's kind and confidence |
| Mentions.MatchLoop | backend/src/null_engine/services/mention_extractor.py:116-130 | the loop with its `continue` and nested tests computes Matches |
| Mentions.ExtractMentions | backend/src/null_engine/services/mention_extractor.py:68-145 | the three loops in turn compute Extract: agents, then pages skipping a wiki source's own page, then factions |
| Mentions.ExtractSound | backend/src/null_engine/services/mention_extractor.py:96-145 | no new mention repeats a recorded (kind, id); a wiki page never mentions itself; agents come before pages and pages before factions; confidence is 0.9 for agents and 0.85 otherwise; each mention's text matches |
| Mentions.KindsInOrder | backend/src/null_engine/services/mention_extractor.py:100-145 | concatenating the three loops' results keeps agents, pages and factions in that order |
| Mentions.ExtractComplete | backend/src/null_engine/services/mention_extractor.py:100-145 | every matching agent, page (other than a wiki source itself) and faction not already recorded is mentioned, with its name and confidence |
| Mentions.FromSource | backend/src/null_engine/services/mention_extractor.py:37-65 | a blank text adds nothing; any other text adds the mentions of Extract |
| Mentions.BlankConversation | backend/src/null_engine/services/mention_extractor.py:44-46 | joining blank messages with spaces gives a blank text, so such a conversation records nothing |
| Export.UndoubleRoundTrip | backend/src/null_engine/api/routes/export.py:107-110 | doubling a field's quotes and closing it loses nothing: reading it back gives the field and the rest |
| Export.QuotedRoundTrip | backend/src/null_engine/api/routes/export.py:107-110 | a quoted field reads back as its value, whatever quotes it holds |
| Export.NextFieldRoundTrip | backend/src/null_engine/api/routes/export.py:110 | a comma and a quoted field read back as the field |
| Export.CsvLineRoundTrip | backend/src/null_engine/api/routes/export.py:107-110 | every edge is recovered from its CSV record |
| Export.CsvLines | backend/src/null_engine/api/routes/export.py:105-110 | the header line, then one record per edge in order |
| Export.ExportKnowledgeGraphCsv | backend/src/null_engine/api/routes/export.py:104-111 | the loop builds the header and one record per edge, joined with line feeds |
| Export.DoubleQuotesFree | backend/src/null_engine/api/routes/export.py:107-109 | doubling quotes adds no line feed |
| Export.CsvLineFree | backend/src/null_engine/api/routes/export.py:110 | the record of an edge without line feeds has none |
| Export.KnowledgeGraphCsvLines | backend/src/null_engine/api/routes/export.py:104-111 | for edges without line feeds, the CSV text splits into the header and one record per edge, each reading back as its edge |
| Export.MarkdownShape | backend/src/null_engine/api/routes/export.py:26-33 | four lines per page in page order: the title as a heading, status and version, the content, a rule |
| Export.ExportWikiMarkdown | backend/src/null_engine/api/routes/export.py:26-33 | the loop appends each page's four lines and joins them with line feeds |
| Export.DumpLinesAt | backend/src/null_engine/api/routes/export.py:74-209 | one line per value, each the JSON dump of its value |
| Export.DumpLinesAppend | backend/src/null_engine/api/routes/export.py:152-209 | the lines of two record lists in turn are the lines of their concatenation |
| Export.RecordsAt | backend/src/null_engine/api/routes/export.py:64-209 | one record per row, in row order |
| Export.JsonLinesSplit | backend/src/null_engine/api/routes/export.py:75-210 | dumps joined with line feeds split back into the same dumps, because a dump has no raw line feed |
| Export.DumpEach | backend/src/null_engine/api/routes/export.py:64-74 | the loop appends the dump of each row's record to the lines so far |
| Export.ExportConversationsJsonl | backend/src/null_engine/api/routes/export.py:50-75 | the conversations, ordered by creation time, dumped one per line |
| Export.ConversationPlain | backend/src/null_engine/api/routes/export.py:65-73 | a conversation record holds only the floats its JSON columns hold |
| Export.EarlierFirstPreorder | backend/src/null_engine/api/routes/export.py:58 | ordering by created_at is a total preorder |
| Export.ConversationsJsonlLines | backend/src/null_engine/api/routes/export.py:62-75 | the JSON Lines text splits back into the dump of each record, in query order |
| Export.ByCreationSound | backend/src/null_engine/api/routes/export.py:58 | the query's order holds every conversation once, earliest first |
| Export.ConversationsJsonlSound | backend/src/null_engine/api/routes/export.py:50-75 | one line per conversation, in order of creation, each the dump of its record |
| Export.ExportAll | backend/src/null_engine/api/routes/export.py:147-210 | the five sections' loops build the dumps of AllRecords, joined with line feeds |
| Export.RecordsAll | backend/src/null_engine/api/routes/export.py:168-209 | a property of every row's record holds of every record of the section |
| Export.Extend | backend/src/null_engine/api/routes/export.py:152-209 | appending a later section after earlier ones keeps the section order |
| Export.RowRecordsOrdered | backend/src/null_engine/api/routes/export.py:166-209 | agents, pages, conversations and edges come in that order |
| Export.ExportAllOrder | backend/src/null_engine/api/routes/export.py:152-209 | sections come in the order world, agents, wiki pages, conversations, knowledge edges, and there is a world record, first, exactly when the world row exists |
| Export.AllRecordsSplit | backend/src/null_engine/api/routes/export.py:152-209 | the records are the world's, if any, then the rows' |
| Export.HeadFirst | backend/src/null_engine/api/routes/export.py:155-166 | the world record ahead of the others keeps the order and is exactly the leading one |
| Export.ExportAllContents | backend/src/null_engine/api/routes/export.py:152-209 | one record per row, rows in query order within their section, at the positions the section sizes give |
| Export.PlainConcat | backend/src/null_engine/api/routes/export.py:152-209 | concatenating record lists that are free of special floats gives one that is free of them |
| Export.ExportAllLines | backend/src/null_engine/api/routes/export.py:152-210 | the export_all text splits back into one JSON document per record |
| Rows.WorldRow.constructor | backend/src/null_engine/models/tables.py:22-24 | a new world row has status "created", epoch 0 and tick 0 |
| Json.HexRoundTrip | backend/src/null_engine/api/routes/export.py:74 | a hexadecimal digit reads back as its value |
| Json.EscapeChar | backend/src/null_engine/api/routes/export.py:74 | each character is written as a non-empty text with no control character |
| Json.Escape | backend/src/null_engine/api/routes/export.py:74 | an escaped string holds no control character |
| Json.EscapeCharRoundTrip | backend/src/null_engine/api/routes/export.py:74 | one escaped character reads back as itself |
| Json.EscapeRoundTrip | backend/src/null_engine/api/routes/export.py:74 | unescaping what json.dumps writes for a string gives the string back |
| Json.JoinFree | backend/src/null_engine/api/routes/export.py:74 | joining texts free of a character with a separator free of it gives a text free of it |
| Json.DumpsOneLine | backend/src/null_engine/api/routes/export.py:74-209 | the dump of a value with no special float holds no raw line feed |
| LlmRouter.UnknownRole | backend/src/null_engine/services/llm_router.py:13-71 | an unknown role goes to OpenAI's gpt-4o-mini, or to llama3.2:3b on Ollama, and both tables know the same roles |
| LlmRouter.KnownProviders | backend/src/null_engine/services/llm_router.py:13-68 | every role is routed to OpenAI or Anthropic, and to Anthropic exactly for chaos_joker |
| LlmRouter.Route | backend/src/null_engine/services/llm_router.py:89-108 | Ollama exactly when it is the configured provider, with the role's Ollama model; otherwise the role's provider and model, replaced by gpt-4o-mini once the budget used reaches the maximum |
| LlmRouter.TextOfSound | backend/src/null_engine/services/llm_router.py:89-134 | generate_text never fails: it gives the reply, or a text starting with "(LLM error" when the call failed or Ollama answered nothing, so an Ollama result is never empty |
| LlmRouter.Router.constructor | backend/src/null_engine/services/llm_router.py:43-47 | a new router has used no budget |
| LlmRouter.Router.GenerateText | backend/src/null_engine/services/llm_router.py:89-134 | the early returns give TextOf the routed target and the provider's outcome |
| LlmRouter.FreshRouterRoutesByRole | backend/src/null_engine/services/llm_router.py:47-108 | with a positive maximum budget, a new router sends each role to its own provider and model |
| LlmRouter.UnfenceFenced | backend/src/null_engine/services/llm_router.py:140-147 | a reply fenced with an info line gives back its body, stripped |
| LlmRouter.UnfencePlain | backend/src/null_engine/services/llm_router.py:140-142 | a reply that does not start with a fence is only stripped |
| LlmRouter.Bracketed | backend/src/null_engine/services/llm_router.py:154-158 | the slice runs from the first opening bracket to the last closing one, inclusive, when the closing one comes after |
| LlmRouter.BracketedComplete | backend/src/null_engine/services/llm_router.py:154-156 | whenever an opening bracket precedes a closing one there is a slice to try |
| LlmRouter.ExtractJsonSound | backend/src/null_engine/services/llm_router.py:136-162 | generate_json never fails: it returns what the whole text parses to, else the object slice, else the array slice, and {} when none of them parses; a result other than {} is what some text parses to |
| LlmRouter.FirstParsed | backend/src/null_engine/services/llm_router.py:149-162 | nothing exactly when none of the texts parses; otherwise what the first text that parses gives, every earlier one failing |
| LlmRouter.ExtractJsonFirstParsed | backend/src/null_engine/services/llm_router.py:149-162 | generate_json answers the parse of the first of the whole text, the object slice and the array slice that parses, and {} when none does: {} exactly when none parses or the first that parses gives {} |
| LlmRouter.StripFence | backend/src/null_engine/services/llm_router.py:140-147 | the fence handling computes Unfence |
| LlmRouter.TryPair | backend/src/null_engine/services/llm_router.py:154-160 | one bracket pair gives the parse of its slice, if there is a slice |
| LlmRouter.ParseReply | backend/src/null_engine/services/llm_router.py:149-162 | the try and the loop over the two bracket pairs compute ExtractFrom |
| LlmRouter.GenerateJson | backend/src/null_engine/services/llm_router.py:136-162 | fence handling and then parsing compute ExtractJson |
| Conversation.Ids | backend/src/null_engine/core/conversation.py:56 | the turn lists the participants' ids in order |
| Conversation.Targets | backend/src/null_engine/core/conversation.py:87 | a message's targets are exactly the other participants' ids |
| Conversation.MessageOf | backend/src/null_engine/core/conversation.py:64-88 | round k is spoken by participant k mod n, who is not among its targets |
| Conversation.EnvelopeOf | backend/src/null_engine/core/conversation.py:93-103 | round k broadcasts an agent.message envelope with the turn's epoch, the speaker's id, the round number and the response |
| Conversation.RunConversation | backend/src/null_engine/core/conversation.py:38-103 | fewer than two participants give an empty turn and broadcast nothing; otherwise one message and one envelope per round, and the prompt of round k sees the last ten of the k earlier history lines |
| Conversation.RoundStructure | backend/src/null_engine/core/conversation.py:63-88 | every round's speaker addresses every other participant and no one else, and round k is spoken by participant k mod n |
| Conversation.SelectParticipants | backend/src/null_engine/core/conversation.py:158-165 | all agents when there are at most `count` of them, otherwise `count` distinct agents of the world; a count of 0 means a drawn count between 3 and 8 |
| Conversation.DistinctCard | backend/src/null_engine/core/conversation.py:165 | agents with distinct ids form a set of the same size, so the sample can be drawn |
| Conversation.Clamp01 | backend/src/null_engine/core/conversation.py:192 | the clamped strength lies in [0, 1], equals the value inside that range, and is 0 below it and 1 above it |
| Conversation.UpdateRelationships | backend/src/null_engine/core/conversation.py:178-192 | no relationship row is added or removed; a row not between two participants is unchanged; a changed strength lies in [0, 1] |
| Conversations.ParsedIdsSound | backend/src/null_engine/api/routes/conversations.py:36-40 | an id is collected from a conversation exactly when one of its participants parses to it |
| Conversations.AllIdsSound | backend/src/null_engine/api/routes/conversations.py:34-40 | an id is looked up exactly when some participant of some conversation parses to it; one that does not parse is skipped |
| Conversations.CollectAgentIds | backend/src/null_engine/api/routes/conversations.py:34-40 | the nested loops collect AllIds |
| Conversations.FactionlessDefault | backend/src/null_engine/api/routes/conversations.py:63 | an agent without a faction is drawn in #6366f1 |
| Conversations.AgentMapSound | backend/src/null_engine/api/routes/conversations.py:59-64 | agent_map holds exactly the fetched agents' ids, each with the entry of an agent carrying it |
| Conversations.BuildAgentMap | backend/src/null_engine/api/routes/conversations.py:43-64 | the loop fills AgentMap |
| Conversations.ResolveAllSound | backend/src/null_engine/api/routes/conversations.py:68-74 | one participant per id, in order, each keeping its id; an id with no agent is listed as Unknown in #6366f1, any other with its agent's entry |
| Conversations.MapKeepsIds | backend/src/null_engine/api/routes/conversations.py:60-61 | each agent_map entry carries its own key as its id |
| Conversations.ResolveParticipants | backend/src/null_engine/api/routes/conversations.py:68-74 | the participants loop computes ResolveAll |
| Conversations.ListConversations | backend/src/null_engine/api/routes/conversations.py:15-90 | an empty page gives the empty list; otherwise the id collection, the batch fetch and the loop compute List |
| Conversations.ListLoop | backend/src/null_engine/api/routes/conversations.py:66-90 | the loop builds one entry per conversation |
| Conversations.FetchedNone | backend/src/null_engine/api/routes/conversations.py:43-44 | with no id collected, agent_map stays empty |
| Conversations.ListEntriesAt | backend/src/null_engine/api/routes/conversations.py:66-88 | one entry per conversation, in query order |
| Conversations.ParticipantsAt | backend/src/null_engine/api/routes/conversations.py:35-36 | the participant lists are the conversations', in order |
| Conversations.FetchedEntry | backend/src/null_engine/api/routes/conversations.py:45-64 | a fetched agent whose id no other row shares is in agent_map with its own entry |
| Conversations.NoAgent | backend/src/null_engine/api/routes/conversations.py:45-64 | an id no agent has is not in agent_map |
| Conversations.ListResolvesAgents | backend/src/null_engine/api/routes/conversations.py:33-88 | a participant whose id is the canonical id of an agent of the world is listed with that agent's name and faction colour; any other id is listed as Unknown in #6366f1; either way it keeps its id and its place |
| Conversations.FilterKeeps | backend/src/null_engine/api/routes/conversations.py:45-49 | an agent whose id was collected is fetched |
| Conversations.NamesAt | backend/src/null_engine/api/routes/conversations.py:158-160 | one name per participant id, in order: the agent's, or Unknown |
| Conversations.NewerFirstPreorder | backend/src/null_engine/api/routes/conversations.py:208 | ordering by descending sort key is a total preorder |
| Conversations.FeedSound | backend/src/null_engine/api/routes/conversations.py:155-210 | exactly the smaller of `limit` and the number of merged items, newest first by sort key, each one of the merged items; no item left out is newer than one kept, and a limit that covers them all loses none |
| Conversations.ConversationItemsAt | backend/src/null_engine/api/routes/conversations.py:157-178 | one conversation item per conversation, in query order |
| Conversations.WikiItemsAt | backend/src/null_engine/api/routes/conversations.py:180-192 | one wiki_edit item per page, in query order |
| Conversations.EpochItemsAt | backend/src/null_engine/api/routes/conversations.py:194-205 | one epoch item per stratum, in query order |
| Conversations.FeedUndatedLast | backend/src/null_engine/api/routes/conversations.py:204-208 | when every conversation and page has a timestamp, the undated items, every epoch among them, come after all dated ones |
| Conversations.ItemsAfterYearZero | backend/src/null_engine/api/routes/conversations.py:177-208 | when every conversation and page has a timestamp, every dated item sorts after "0000" |
| Conversations.FeedTiesKeepOrder | backend/src/null_engine/api/routes/conversations.py:155-210 | items with equal keys keep their merge order (conversations, then wiki edits, then epochs), and the feed is a prefix of the sorted items |
| Conversations.FeedConversation | backend/src/null_engine/api/routes/conversations.py:157-178 | a conversation item counts its messages, previews at most the first 120 characters of the first message (empty without messages), and names each participant: Unknown for an id no agent has, the agent's name for an agent's canonical id |
| Conversations.FeedWikiCreator | backend/src/null_engine/api/routes/conversations.py:137-187 | a wiki edit names a creator exactly when the page has one: the agent's name, or Unknown when no agent has that id |
| Conversations.NameParticipants | backend/src/null_engine/api/routes/conversations.py:158-160 | the names loop computes Names |
| Conversations.AddConversations | backend/src/null_engine/api/routes/conversations.py:157-178 | the loop appends each conversation's item |
| Conversations.AddWikiEdits | backend/src/null_engine/api/routes/conversations.py:180-192 | the loop appends each page's item |
| Conversations.AddEpochs | backend/src/null_engine/api/routes/conversations.py:194-205 | the loop appends each stratum's item |
| Conversations.ConversationNameMap | backend/src/null_engine/api/routes/conversations.py:112-125 | the id collection and the lookup build ConversationNames |
| Conversations.CreatorNameMap | backend/src/null_engine/api/routes/conversations.py:137-143 | the creators' names map is CreatorNames |
| Conversations.GetFeed | backend/src/null_engine/api/routes/conversations.py:94-210 | the three loops, the sort and the cut compute Feed |
| Translator.BlankNotTranslated | backend/src/null_engine/services/translator.py:25-28 | an empty or blank text gets no translation, whatever the LLM would answer |
| Translator.TranslationSound | backend/src/null_engine/services/translator.py:25-41 | a translation exists exactly when the text is not blank and the LLM gave a non-empty answer not starting with "(LLM error"; it is that answer stripped |
| Translator.RouterFailureNotTranslated | backend/src/null_engine/services/translator.py:30-38 | when the router's call fails, its error text is never taken for a translation |
| Translator.TranslatedMessagesAt | backend/src/null_engine/services/translator.py:48-58 | one copy per message, in order |
| Translator.TranslatedMessagesSound | backend/src/null_engine/services/translator.py:44-58 | each copy has the same fields and keeps every value but content, which becomes the non-empty translation when there is one and stays the original otherwise |
| Translator.TranslateMessages | backend/src/null_engine/services/translator.py:44-58 | nothing exactly for an empty list, otherwise the translated copies |
| Translator.CopyMessages | backend/src/null_engine/services/translator.py:48-58 | the loop computes TranslatedMessages |
| Translator.CopyMessage | backend/src/null_engine/services/translator.py:50-57 | the loop body copies the message and replaces its content by a non-empty translation |
| Translator.Marked | backend/src/null_engine/services/translator.py:86-143 | a field that marks the row processed always ends up set, and keeps a value it already had |
| Translator.TranslateIfPresent | backend/src/null_engine/services/translator.py:74-75 | the guard `if text` before translating changes nothing: the result is the translation of the text |
| Translator.ConversationProcessedIdempotent | backend/src/null_engine/services/translator.py:73-87 | processing a conversation twice leaves what processing it once does |
| Translator.WikiPageProcessedIdempotent | backend/src/null_engine/services/translator.py:107-118 | processing a page twice leaves what processing it once does |
| Translator.StratumProcessedIdempotent | backend/src/null_engine/services/translator.py:137-143 | processing a stratum twice leaves what processing it once does |
| Translator.ConversationRow.Translate | backend/src/null_engine/services/translator.py:73-87 | the row's fields become ConversationProcessed of the old ones: topic, summary and messages unchanged; topic_ko, summary_ko and messages_ko take the translation when there is one and keep their old value otherwise; topic_ko falls back to the topic, so the row is no longer pending |
| Translator.WikiPageRow.Translate | backend/src/null_engine/services/translator.py:107-118 | the page's fields become WikiPageProcessed of the old ones: title and content unchanged; title_ko and content_ko take their translations when there are any and keep their old value otherwise; title_ko falls back to the title, so the page is no longer pending |
| Translator.StratumRow.Translate | backend/src/null_engine/services/translator.py:137-143 | the fields become StratumProcessed of the old ones: the summary is unchanged; summary_ko becomes its translation, or the summary itself when there is none, so the stratum is no longer pending |
| Translator.PendingConversations | backend/src/null_engine/services/translator.py:64-67 | each pending conversation is a row of the table with no topic_ko and a non-empty topic |
| Translator.PendingWikiPages | backend/src/null_engine/services/translator.py:98-101 | each pending page is a row of the table with no title_ko and a non-empty title |
| Translator.PendingStrata | backend/src/null_engine/services/translator.py:129-132 | each pending stratum is a row of the table with no summary_ko and a non-empty summary |
| Translator.TranslateConversations | backend/src/null_engine/services/translator.py:61-92 | the first five pending conversations each get ConversationProcessed of their old fields (the Korean values above) and are no longer pending; no other row changes; the number processed is returned |
| Translator.TranslateEachConversations | backend/src/null_engine/services/translator.py:73-87 | every row of the batch ends with ConversationProcessed of its old fields and is not pending; no other row is touched |
| Translator.TranslateWikiPages | backend/src/null_engine/services/translator.py:95-123 | the first five pending pages each get WikiPageProcessed of their old fields and are no longer pending; no other row changes; the number processed is returned |
| Translator.TranslateEachWikiPages | backend/src/null_engine/services/translator.py:107-118 | every page of the batch ends with WikiPageProcessed of its old fields and is not pending; no other row is touched |
| Translator.TranslateStrata | backend/src/null_engine/services/translator.py:126-148 | the first five pending strata each get StratumProcessed of their old fields and are no longer pending; no other row changes; the number processed is returned |
| Translator.TranslateEachStrata | backend/src/null_engine/services/translator.py:137-143 | every stratum of the batch ends with StratumProcessed of its old fields and is not pending; no other row is touched |
| Genesis.BatchCount | backend/src/null_engine/core/genesis.py:192 | a request asks for between 1 and 5 personas, never more than remain |
| Genesis.CollectedBound | backend/src/null_engine/core/genesis.py:191-208 | the batches from a start on add no more personas than remain to be asked for |
| Genesis.PersonasBound | backend/src/null_engine/core/genesis.py:187-211 | at most count personas come back, none for a count that is not positive |
| Genesis.FullAnswersFillCount | backend/src/null_engine/core/genesis.py:191-211 | when every batch's first answer holds at least five personas, exactly count personas are collected |
| Genesis.EmptyBatch | backend/src/null_engine/core/genesis.py:194-209 | a batch whose three attempts all come back empty adds nothing |
| Genesis.RequestBatch | backend/src/null_engine/core/genesis.py:192-209 | one batch makes one to three requests, all for this batch and well formed, and keeps at most its batch count from the first non-empty answer |
| Genesis.GeneratePersonas | backend/src/null_engine/core/genesis.py:187-211 | the two loops return Personas, and every request they make is well formed |
| Genesis.TagTextNormalized | backend/src/null_engine/core/genesis.py:242 | a stored tag is lower case, at most 100 characters, starts with no whitespace, and is a prefix of the stripped, lower-cased text |
| Genesis.StripKeepsLower | backend/src/null_engine/core/genesis.py:242 | stripping keeps a text free of upper-case letters |
| Genesis.TagRowsSound | backend/src/null_engine/core/genesis.py:238-247 | each stored row comes from a tagged item, its text normalized and a missing weight taken as 1.0 |
| Genesis.WorldTagsSound | backend/src/null_engine/core/genesis.py:237-247 | at most eight tags are stored, and when no weight is malformed every tagged item among the first eight gives one row |
| Genesis.TagRowsCount | backend/src/null_engine/core/genesis.py:238-245 | with no malformed weight, one row per tagged item |
| Genesis.GenerateWorldTags | backend/src/null_engine/core/genesis.py:225-247 | the loop over the first eight items computes WorldTags; a malformed weight ends it and keeps the rows already added |
| Genesis.AgentStepsAt | backend/src/null_engine/core/genesis.py:142-147 | one agents step per faction, the faction at idx numbered 3 + idx |
| Genesis.ProgressNumbering | backend/src/null_engine/core/genesis.py:91-180 | every entry has total_steps = factions + 4; steps 1 and 2 are world_config and factions; the agents step of the faction at idx is 3 + idx; the last two are relationships (total_steps - 1) and tags (total_steps) |
| Genesis.ProgressMonotone | backend/src/null_engine/core/genesis.py:91-180 | the step numbers rise strictly exactly when the config has no more factions than were requested, and stay within total_steps exactly when it has at most two more |
| Genesis.FactionPersonasBound | backend/src/null_engine/core/genesis.py:142-163 | one persona list per faction, none longer than the agent_count it asked for |
| Genesis.PopulateFactions | backend/src/null_engine/core/genesis.py:142-165 | the loop records one agents step and generates the personas of each faction |
| Genesis.CreateFactions | backend/src/null_engine/core/genesis.py:124-134 | one faction row per spec, with an empty description and #FFFFFF for what is missing |
| Genesis.PopulateWorld | backend/src/null_engine/core/genesis.py:87-184 | populate_world step by step computes Populate: nothing when the world row is missing, otherwise the progress trace, the factions, their personas and the tags |
| Genesis.CreateWorld | backend/src/null_engine/core/genesis.py:53-65 | a new world row is "generating" while it is populated and "created" afterwards |
| LoadTest.TallySound | backend/scripts/loadtest.py:23-39 | from fresh statistics, every latency is kept in order, ok counts the 2xx samples, ok + failed counts every sample, and each status code counts the samples that carried it, a request that raised counting for none |
| LoadTest.EndpointStats.constructor | backend/scripts/loadtest.py:23-28 | fresh statistics hold no latency, no success, no failure and no status count |
| LoadTest.EndpointStats.Record | backend/scripts/loadtest.py:30-39 | the latency is always appended; a request that raised counts as a failure and touches no status count; otherwise its code's count rises by one and it counts as a success exactly when the code is 2xx; the statistics stay consistent |
| LoadTest.ContainsInfix | backend/scripts/loadtest.py:84-87 | a text built around the world id contains it |
| LoadTest.BuildEndpointsSound | backend/scripts/loadtest.py:73-90 | five endpoints without a world id, nine with a non-empty one; the base five come first, and each of the other four names the world |
| LoadTest.PlanRequests | backend/scripts/loadtest.py:111-113 | one queued request per requested one (none for a count that is not positive), request i going to endpoint i mod n |
| LoadTest.RoundRobin | backend/scripts/loadtest.py:112-113 | the plan repeats with the number of endpoints, and a plan at least that long starts with every endpoint once, in order |
| LoadTest.ModShift | backend/scripts/loadtest.py:113 | shifting an index by n keeps its endpoint |
| LoadTest.RateBelowTarget | backend/scripts/loadtest.py:165-167 | the rate is below 0.98 exactly when nothing completed or fewer than 98 in 100 requests succeeded |
| LoadTest.ScaleLess | backend/scripts/loadtest.py:165-167 | scaling by a positive number keeps an inequality |
| LoadTest.AlertsSound | backend/scripts/loadtest.py:165-170 | the success alert fires exactly when nothing completed or fewer than 98 in 100 requests succeeded; the latency alert exactly when the 95th percentile exceeds 1000 ms |
| LoadTest.ExitCodeSound | backend/scripts/loadtest.py:327-373 | the script exits with 1 exactly when a real run raised an alert and --no-fail-on-alert was not given, so a run in which no request completed fails |
| LoadTest.ReversedMapAt | backend/scripts/loadtest.py:311-322 | the rows are visited from the newest to the oldest |
| LoadTest.TrendWindow | backend/scripts/loadtest.py:271-274 | the window is the last history_window rows when that is positive (all of them when there are fewer) and every row otherwise; with no row the report says there is no data |
| LoadTest.TrendLayout | backend/scripts/loadtest.py:276-324 | seventeen heading lines counting every captured run and the rows in the window, then one table row per run in the window, newest first |
| LoadTest.HeadingCounts | backend/scripts/loadtest.py:291-309 | the heading has seventeen lines, the third counting the captured runs and the fourth the window |
| LoadTest.AppendRows | backend/scripts/loadtest.py:311-322 | the loop appends the table rows, newest first |
| LoadTest.WriteTrendMarkdown | backend/scripts/loadtest.py:268-324 | the text written is TrendText |
| SimulationStore.EventsAfterSound | frontend/src/stores/simulation.ts:244 | after one event at most 501 are kept: the new one last, before it the most recent 500 old ones (all of them when fewer) in order |
| SimulationStore.AddAllWindow | frontend/src/stores/simulation.ts:244 | after one or more events the store holds exactly the most recent 501 of everything it has seen, or all of it when there were fewer |
| SimulationStore.WorldAfterSound | frontend/src/stores/simulation.ts:245-253 | an event leaves a missing world missing; otherwise the world keeps its id and status, takes the event's epoch, and takes the payload's tick exactly when there is one |
| SimulationStore.WithoutSound | frontend/src/stores/simulation.ts:330-334 | dismissing removes exactly the messages with that id, keeps the others, shortens the list by their number, and a second dismissal changes nothing |
| SimulationStore.WithoutOthers | frontend/src/stores/simulation.ts:330-334 | dismissing an id no message has changes nothing |
| SimulationStore.TagMapSound | frontend/src/stores/simulation.ts:219-224 | an id is in the tag map exactly when some listing of it has tags, and it maps to the tags of the last such listing |
| SimulationStore.Store.constructor | frontend/src/stores/simulation.ts:127-143 | the store starts with no world, no event, no selection, the feed tab, no herald message, no feed item, no auto world, no tag and no tag filter |
| SimulationStore.Store.AddHeraldMessage | frontend/src/stores/simulation.ts:322-328 | the message is appended with its id, text and time; nothing else changes |
| SimulationStore.Store.AddEvent | frontend/src/stores/simulation.ts:242-268 | the events become EventsAfter, the world WorldAfter; a herald announcement appends a herald message and nothing else does; the refreshes started are those of the new world and the event kind; nothing else changes |
| SimulationStore.Store.DismissHerald | frontend/src/stores/simulation.ts:330-334 | the messages with that id are removed; nothing else changes |
| SimulationStore.Store.SetSelectedAgent | frontend/src/stores/simulation.ts:303 | the agent is selected and the agent tab shown; nothing else changes |
| SimulationStore.Store.SetSelectedConversation | frontend/src/stores/simulation.ts:301 | the conversation is selected; nothing else changes |
| SimulationStore.Store.SetIntelTab | frontend/src/stores/simulation.ts:305 | the tab is shown; nothing else changes |
| SimulationStore.Store.StartSimulation | frontend/src/stores/simulation.ts:232-235 | a loaded world becomes "running", no world stays none; nothing else changes |
| SimulationStore.Store.StopSimulation | frontend/src/stores/simulation.ts:237-240 | a loaded world becomes "paused", no world stays none; nothing else changes |
| SimulationStore.Store.FetchFeed | frontend/src/stores/simulation.ts:282-299 | a failed request changes nothing; a page fetched with a non-empty cursor is appended to the feed, any other replaces it; nothing else changes |
| SimulationStore.Store.FetchAutoWorlds | frontend/src/stores/simulation.ts:209-230 | a failed request changes nothing; otherwise the list is stored and the tag map rebuilt from it; nothing else changes |
| SimulationStore.Store.SetTagFilter | frontend/src/stores/simulation.ts:306-309 | the filter is stored and a refresh of the world list started; nothing else changes |
| SimulationStore.CollectTags | frontend/src/stores/simulation.ts:219-224 | the loop builds TagMap |

## Left out

- Database I/O: SQLAlchemy sessions, queries, commits and rollbacks are not modelled. Query results are parameters, in the order and with the limit the query states. A rolled-back tick changes no row.
- LLM content: prompt wording and the provider SDK calls are not modelled. Generated text is a parameter, and so is the outcome of each provider call: a reply, or an exception.
- Randomness: `random.sample`, `random.choice`, `random.uniform` and `random.randint` are not modelled. Their results are parameters, or an arbitrary choice that the contract constrains only as the source does.
- Clock: wall-clock readings (`now`, `time.monotonic`) are parameters.
- Envelopes: the envelope's `timestamp` field, which the backend sets from the clock when it builds the envelope, is not modelled. An envelope carries only its type, epoch and payload.
- Concurrency: asyncio tasks, cancellation, sleeps and the load-test worker pool are not modelled. Each operation is one sequential step.
- Floating point: rounding (`round(..., 3)`, `round(..., 4)`), percentiles and float formatting are not modelled. Averages, rates and strengths are exact reals.
- Text: lower-casing is ASCII-only, and strings are sequences of characters with no Unicode case folding.
- Export: the JSON variants of the knowledge-graph and wiki exports and `export_agents` are not modelled. `export_all`'s agent and edge lines are covered.
- Export.KnowledgeGraphCsvLines: the one-record-per-line reading holds only for edges without line feeds. A field with an embedded line feed is quoted but still splits the LF-joined text, and the exporter does not guard against it.
- LlmRouter: the lazily created SDK clients and the cost accounting are not modelled. The source never increases `_budget_used`, so the budget used is a parameter of routing.
- Conversations: `uuid.UUID(str(pid))` canonicalisation is abstracted as a `parse` parameter.
- Runner: wiki generation at an epoch change is not modelled, beyond choosing the topics and clearing the buffer. Its LLM calls and page writes belong to the wiki service, which is not part of this model.
- Runner: the stages of `_tick` other than the conversation summary are not modelled (events, posts, herald, consensus calls, stratum detection). Each tick's outcome is a parameter.
- Conversation.UpdateRelationships: the drift is a parameter, but the contract does not state the new value of a pair between two participants, `Clamp01(rels[(ps[i], ps[j])] + drift(ps[i], ps[j]))` for i < j, nor that the reversed pair (ps[j], ps[i]) is left as it was. It states only that no row is added or removed, that rows outside the participants are unchanged, and that a changed strength lies in [0, 1].
- RuntimeMetrics.AverageIsMean: the stored average is the mean of the durations only while each reported ticks_total is one more than the last. A runner that restarts reports a total from 1 again, and the average then weighs the durations unevenly; that case is not stated.
- Translator: `_count_pending` and `translation_worker_loop` are not modelled. They are a count query and a sleeping background loop.
- Translator: the message lists are modelled as maps from key to text, with the `content` key translated.
- Genesis: `_generate_relationships` is not modelled, because it is random. The default agent names built from a uuid, the world-config update and the `extra_config` merge are not modelled either.
- Genesis: the `percent` field of the progress record is not modelled, because it is a rounded float. The content of the world config that the LLM generates is a parameter.
- Genesis.GenerateWorldTags: tag values other than strings are not modelled. A tag is its text.
- LoadTest: the HTTP calls of `run_load`, `discover_world_id`, `percentile` and the per-endpoint summary are not modelled.
- LoadTest: `write_summary`, `build_history_record`, `append_history`, `read_history` and `parse_args` are not modelled. They are file I/O and argument parsing.
- LoadTest: `fmt_delta`'s float formatting is a parameter `withDelta`.
- SimulationStore: the fetch-only actions (`fetchWorld`, `fetchAgents` and the like), `exportWorld`, `setSelectedFaction`, the 8-second herald dismissal timer and the other stores are not modelled. Fetch responses are parameters.
- Broadcast: JSON serialisation of the envelope is abstracted. The envelope value itself is what every connection is sent.
