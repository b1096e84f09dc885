# TradingAgents: a verified model of its algorithms and protocols

This project models the stateful core of a multi-agent stock analysis service and proves what
its parts keep over every run. Each module stands for one component.

| module | component |
|---|---|
| `RollingContext` | Kronos autoregressive inference: token buffers filled and then rolled in place, with a stamp window sliced beside them |
| `NucleusFilter` | top-k and nucleus filtering of logits, and when sampling calls it |
| `BitCodecs` | the bit-index codecs of the tokenizer, some with the first place lowest, some with it highest |
| `DataCollector` | the shared reference-counted data cache, as a class and as interleaved steps of any number of threads |
| `JobStore` | the in-memory job table, its bounded event queues and its clean-up timers |
| `JobLifecycle` | one analysis job on the event loop: supervisor with soft and hard deadline, workflow, queue, subscriber |
| `SseWire` | the server-sent event printer and the browser's incremental parser (HTML Living Standard, sections 9.2.5 and 9.2.6) |
| `AgentGraph` | the compiled graph from Bull Researcher to END: debates inside a retry loop |
| `AgentProgress` | the agent board: tracker, snapshot, status events and their replay in the browser |
| `Scheduler` | the table of scheduled analyses: daily claims, results, manual tests, edits |
| `ScheduleQuota` | adding symbols to a user's schedule within the limit |
| `MiniQmtSync` | the background synchronisation of a MiniQMT cache: work units, published progress, outstanding tasks |
| `TradeCalendar` | trading days, their succession and the latest day with data |
| `PortfolioImport` | imported holdings: cleaning, valuation, weighting, keyed upsert, deletion |
| `Helpers` | definitions the others share, and what it means to select from a list |

Code that works on expressions is modelled by functions; code that changes objects, arrays or
dictionaries by classes and methods whose postconditions give the whole new state as a function
of the old one. Concurrency is modelled by state machines: a step is what one thread or coroutine
does between two points where another can come in, and the theorems speak of every sequence of
steps. The neural network, the sampler, prices, roundings, the outcome of downloads and saves,
the verdicts of agents and the passing of deadlines are parameters about which nothing is assumed.

## Where the code does not do what it seems to promise

Each of these is stated with the exact condition, for all inputs.

- A prediction of length zero slices with `[-0:]` and returns the decoded history (`RollingContext.PredictionSlice`). Only a direct caller of `generate` meets this: the service refuses a length below one (`kronos_service/service.py:139`), and `predict` fails on the index that no longer fits (`kronos_service/model/kronos.py:561`).
- Nucleus filtering protects one token more than `min_tokens_to_keep` when that is above one. The filtered row differs from the one asked for exactly when the tokens asked for are not all there are and already exceed `top_p`; then one token more is kept (`NucleusFilter.RowDiffersIff`, `NucleusFilter.FloorDiffersIff`, an input in `NucleusFilter.KeepsThreeForTwo`).
- `sample_from_logits` raises when just one of its two limits is None, unless a positive `top_k` comes first (`NucleusFilter.SampleFromLogits`).
- The half form of `indices_to_bits` reads both indices with half the codebook width, so it inverts the split only when `s1_bits == s2_bits` (`BitCodecs.HalvesRoundTrip`).
- The quantiser numbers codes after scaling them although the numbering is documented for {-1, 1}; the numbers agree only for a scale of one (`BitCodecs.ScaledIndexesAgree`).
- `evict` without `ref`, as after a dry run (`api/main.py:2521`), can make a concurrent `collect` fail with a KeyError, at once or through a later evict of another holder: a read fails exactly when an evict of its key found a count of at most one since the check or store before it (`DataCollector.ReadFailsIff`; a run in `DataCollector.ReaderLosesEntry`).
- A job takes and gives back its reference under `request.symbol` but collects under the ticker its intent names (`api/main.py:1945`, `api/main.py:1987-1997`, `api/main.py:2521`). When the two differ nothing drops the entry it stored: an entry outlives all threads using its key exactly when, since some store of it, no evict of the key found a count of at most one (`DataCollector.OutlivesIff`, a run in `DataCollector.LeavesEntryBehind`).
- A soft deadline that falls between the failed status and the `job.failed` event leaves the job "running" for ever (`JobLifecycle.FinalStatus`, a schedule in `JobLifecycle.StaysRunning`), which can happen exactly when that deadline is announced at all (`JobLifecycle.CanStayRunningIff`); a scheduled run then looks like a success to `scheduler/main.py:236-238`.
- A poll that times out although the completed event has just been put ends the subscription before `job.completed`: delivery fails exactly by a poll that reads the status completed (`JobLifecycle.DeliveredIff`, a schedule in `JobLifecycle.LosesCompleted`). The queue is dropped with the subscription, so whoever subscribes after that receives nothing (`JobLifecycle.TooLate`).
- A frame survives printing and parsing exactly when name and payload are one line without white space at the ends (`SseWire.SurvivesIffClean`).
- The browser never shows an empty status (`AgentProgress.BoardFollowsTracker`).
- A result recorded after the task was claimed for a later day sets the date back, and the later day is claimed again exactly when a tick still comes at which the task is active and its time has come (`Scheduler.ClaimedOnceIff`, `Scheduler.LateResultClaimsAgain`).
- When the first save of a synchronisation fails the service says "running" without a task and refuses every later request (`MiniQmtSync.StuckRunning`, `MiniQmtSync.OutstandingIffBusy`).
- A stage without its library call is recorded as unsupported exactly when the note of that can be saved, and as failed otherwise (`MiniQmtSync.StagesAsRecorded`, `MiniQmtSync.MiniQMTSyncService.CallStage`).

## Model

| member | source | states |
|---|---|---|
| RollingContext.AutoRegressiveInference | kronos_service/model/kronos.py:400-464 | For every history, context of at least one, prediction length and model: each token is what the model gives for the at most `max_context` tokens before it, at both levels, and the stamps of the same positions as far as they reach, said position by position; so the fill-then-roll loop equals the loop that keeps the whole sequence; what is decoded is the last `max_context` of all tokens |
| RollingContext.GenerateTokens | kronos_service/model/kronos.py:405-454 | The generation loop with its four preallocated arrays makes every token from the windows of the positions before it and equals the naive loop, token for token, in both levels |
| RollingContext.NaiveIsAutoregressive | kronos_service/model/kronos.py:417-441 | Every token of the naive loop is the model's answer to any three sequences that hold, by position, the tokens and stamps of the window before it |
| RollingContext.PushToken | kronos_service/model/kronos.py:447-454 | Writing or rolling keeps the buffer equal to the last tokens of the extended history |
| RollingContext.RollLeft | kronos_service/model/kronos.py:451-452 | The in-place roll moves every token one place down and the first to the end |
| RollingContext.FillBuffer | kronos_service/model/kronos.py:408-414 | The initial fill holds the last tokens of the history |
| RollingContext.ReadWindow | kronos_service/model/kronos.py:421-430 | The window handed to the model is the last tokens of the history, while filling and when full |
| RollingContext.WindowsAligned | kronos_service/model/kronos.py:432-434 | Token window and stamp window cover the same positions, exactly as long as the stamps reach that far |
| RollingContext.PredictionSlice | kronos_service/model/kronos.py:519 | The final slice lines up with the last min(pred_len, max_context) generated tokens if and only if something was asked for or there was no history |
| RollingContext.OnlyTheWindowMatters | kronos_service/model/kronos.py:410-434 | Cutting a long history to the context, with its stamps, changes no later token |
| NucleusFilter.TopKTopPFilter | kronos_service/model/kronos.py:331-370 | In original indexing, top-k keeps what is not below the k-th largest; nucleus filtering keeps exactly the shortest prefix of the descending order whose mass exceeds top_p (all if none does); nothing is returned exactly when neither limit applies |
| NucleusFilter.RowDiffersIff | kronos_service/model/kronos.py:354-370 | For every row the filtered row differs from the one with exactly `min_tokens_to_keep` protected if and only if more than one and fewer than all tokens were asked for and their mass already exceeds top_p |
| NucleusFilter.FloorDiffersIff | kronos_service/model/kronos.py:360-365 | In exactly that case the number kept differs from the number asked for, and is one more |
| NucleusFilter.KeepsThreeForTwo | kronos_service/model/kronos.py:360-362 | Such an input: two tokens asked for, three kept |
| NucleusFilter.ProtectAndShift | kronos_service/model/kronos.py:360-365 | Clearing and shifting in place: position j is flagged iff the mass before it exceeds top_p and j is past the protected ones |
| NucleusFilter.Scatter | kronos_service/model/kronos.py:368 | The sorted flags land on the original indices |
| NucleusFilter.MarkAbove | kronos_service/model/kronos.py:356-359 | The running sum flags every position whose cumulative probability exceeds top_p |
| NucleusFilter.NucleusUnique | kronos_service/model/kronos.py:354-370 | Exactly one prefix is the nucleus, so the result is determined |
| NucleusFilter.FlagsAreNucleus | kronos_service/model/kronos.py:359-365 | The shifted flags are clear on the nucleus and set behind it |
| NucleusFilter.KeptDominatesRemoved | kronos_service/model/kronos.py:354-370 | Something is always kept, and every kept logit is unchanged and at least every removed one |
| NucleusFilter.TopKKeepsTies | kronos_service/model/kronos.py:347-352 | Top-k keeps the first k and beyond them exactly the ties with the k-th |
| NucleusFilter.TopKCount | kronos_service/model/kronos.py:347-352 | The larger of `top_k` and `min_tokens_to_keep` logits are kept, all if there are no more, and exactly that many if and only if the next one is smaller than the last of them |
| NucleusFilter.SampleFromLogits | kronos_service/model/kronos.py:373-386 | Sampling never gets the filter's missing result, raises exactly when a None is compared, and always has a finite logit to draw from |
| BitCodecs.BitsRoundTrip | kronos_service/model/kronos.py:133-140 | Decoding the lowest-first index of a quantised sign vector of any width restores the vector |
| BitCodecs.IndicesRoundTrip | kronos_service/model/module.py:234-243 | Encoding a decoded index restores the index, so the codec is a bijection |
| BitCodecs.HalvesRoundTrip | kronos_service/model/kronos.py:126-132 | The split form restores every vector if and only if both halves are equally wide |
| BitCodecs.UnequalHalves | kronos_service/model/module.py:248-251 | For unequal halves a concrete vector is lost |
| BitCodecs.HighestFirst | kronos_service/model/module.py:163-169 | The highest-first index equals the lowest-first index of the reversed code |
| BitCodecs.WorthOfPlace | kronos_service/model/kronos.py:133-140 | By `bits_to_indices` the only place that is not negative, at i, gives 2^i |
| BitCodecs.WorthOfCodePlace | kronos_service/model/module.py:163-169 | By `codes_to_indexes` the only positive place, at i of n, gives 2^(n-1-i) |
| BitCodecs.CodesRoundTrip | kronos_service/model/module.py:179-185 | `indexes_to_codes` inverts `codes_to_indexes` on {-1, 1} codes, and the index is in range |
| BitCodecs.IndexesRoundTrip | kronos_service/model/module.py:163-185 | `codes_to_indexes` inverts `indexes_to_codes` on every index of the codebook |
| BitCodecs.GroupsAreDigits | kronos_service/model/module.py:171-177 | The group indexes are the base-2^group_size digits of the full index |
| BitCodecs.GroupsRoundTrip | kronos_service/model/module.py:187-194 | Decoding the group indexes restores the whole code |
| BitCodecs.GroupCodebook | kronos_service/model/module.py:76-77 | The last places of a full code are the group code of the same index |
| BitCodecs.JoinCodes | kronos_service/model/module.py:163-177 | Joining two codes shifts the first index by the width of the second |
| BitCodecs.ScaledIndexesAgree | kronos_service/model/module.py:95-103 | The indexes of scaled codes agree with those of {-1, 1} codes for all codes if and only if the scale is one |
| BitCodecs.TopCodeShrinks | kronos_service/model/module.py:95-103 | For a smaller scale the code of ones gets a lower index |
| BitCodecs.SplitIsBijection | kronos_service/model/module.py:417-428 | Splitting a composite token is a bijection onto in-range pairs, inverted by s1 * 2^s2_bits + s2 |
| BitCodecs.SplitMatchesCode | kronos_service/model/module.py:417-428 | The two parts of a split full index are the indexes of the two parts of the code |
| DataCollector.DataCollector.GetKeyLock | tradingagents/graph/data_collector.py:391-395 | Makes a lock for a new key and returns the key's lock; nothing else changes |
| DataCollector.DataCollector.Ref | tradingagents/graph/data_collector.py:436-440 | Adds one to the count of the key; nothing else changes |
| DataCollector.DataCollector.Evict | tradingagents/graph/data_collector.py:442-454 | Takes one from the count and drops entry and count when none is left; the lock stays |
| DataCollector.DataCollector.Collect | tradingagents/graph/data_collector.py:397-417 | Undisturbed: returns the entry, or fetches and stores it, or fails with the fetch and stores nothing |
| DataCollector.LockStep | tradingagents/graph/data_collector.py:391-417 | Every step keeps one lock object per key for ever, held by exactly the thread inside |
| DataCollector.CountStep | tradingagents/graph/data_collector.py:436-454 | Every step keeps each count equal to the number of threads between ref and evict |
| DataCollector.CacheStep | tradingagents/graph/data_collector.py:413-417 | Every step keeps entries held by somebody, absent while fetched, and equal to what was seen |
| DataCollector.RunInv | tradingagents/graph/data_collector.py:382-454 | Lock, count and cache invariants hold in every state of every run of any number of threads |
| DataCollector.OneFetchInFlight | tradingagents/graph/data_collector.py:397-417 | Two threads fetching the same key are one thread |
| DataCollector.OneFetchPerPeriod | tradingagents/graph/data_collector.py:413-414 | Between two completed fetches of a key its count fell to zero |
| DataCollector.EntryIsStable | tradingagents/graph/data_collector.py:442-454 | As long as somebody holds the key its entry neither disappears nor changes |
| DataCollector.SamePool | tradingagents/graph/data_collector.py:415 | All collects of such a period return the same pool and none misses its entry |
| DataCollector.SamePoolWasFetched | tradingagents/graph/data_collector.py:413-417 | That pool is the one a completed fetch of the key has returned earlier in the run |
| DataCollector.CachedWasFetched | tradingagents/graph/data_collector.py:413-415 | Over every run, disciplined or not, whatever is cached for a key is the pool of an earlier completed fetch by a thread with that key |
| DataCollector.StoreIsOwnFetch | tradingagents/graph/data_collector.py:411-415 | Every store puts in the pool its own thread has fetched since its own check found no entry |
| DataCollector.FailedFetch | tradingagents/graph/data_collector.py:412-417 | A fetch that raises leaves cache, counts and locks as they were, and its thread can only give back its lock, with the error |
| DataCollector.ThreadGoes | tradingagents/graph/data_collector.py:397-454 | Over every run, each step takes its thread from the stated phase to the next one, by whether its key is cached |
| DataCollector.NeverStuck | tradingagents/graph/data_collector.py:397-417 | In every state of every run the stated steps are open to a thread; only acquiring a lock depends on the others, exactly on the lock being free |
| DataCollector.ReleaseFrees | tradingagents/graph/data_collector.py:410-417 | A release frees exactly the lock its thread holds, and a pool that was read is what the thread has seen |
| DataCollector.EntryLifetime | tradingagents/graph/data_collector.py:419-454 | A holder that has collected finds its pool until it evicts, and a key nobody holds has no entry |
| DataCollector.StrayEvict | api/main.py:2520-2521 | Directly before a read, an evict without a reference makes the read fail exactly when its thread is the only holder |
| DataCollector.ReadFailsIff | tradingagents/graph/data_collector.py:413-415 | Over every run with any number of evicts and collects without a reference, a read raises KeyError if and only if, since its thread's check or store, some evict of the key found a count of at most one (an absent count reads as one) |
| DataCollector.LooseRunInv | tradingagents/graph/data_collector.py:391-417 | Even with evicts and collects without a reference, one lock a key is held by exactly the thread inside, and what is being fetched is not cached |
| DataCollector.PresentIff | tradingagents/graph/data_collector.py:413-454 | Over every such run an entry is in the cache if and only if, since some store of it, no evict of its key found a count of at most one |
| DataCollector.OutlivesIff | api/main.py:1987-1997 | When no thread is using a key any more its entry is left behind if and only if, since some store of it, no evict of the key found a count of at most one |
| DataCollector.LeavesEntryBehind | api/main.py:1987-1997 | A concrete run: one thread collects without a reference and leaves, and its entry stays with no count |
| DataCollector.ReaderLosesEntry | tradingagents/graph/data_collector.py:442-454 | A concrete run of two holders: an evict without a reference, then the second holder's own evict, and the first one's read fails |
| JobStore.EventQueue.PutWithOverflow | api/job_store.py:190-208 | The new event is appended, and a full queue loses its oldest |
| JobStore.QueueKeepsNewest | api/job_store.py:190-208 | Over every interleaving of emits and takes the queue is the newest part of what was emitted, within its cap, and the takes are an ordered selection of what came before |
| JobStore.NothingLost | api/job_store.py:190-208 | Takes and queue together are all that was emitted, exactly as long as no event met a full queue |
| JobStore.QueueTells | api/job_store.py:190-208 | After any emits and takes, an emit puts its event last, at the cost of the oldest of a full queue, and a take hands over the oldest |
| JobStore.EachOverflowLosesOne | api/job_store.py:190-208 | Every event emitted is taken, queued or lost, and each emit that meets a full queue loses exactly one |
| JobStore.InMemoryJobStore.SetJob | api/job_store.py:110-123 | Merges the fields, arms a fresh timer on a terminal status and cancels it on another |
| JobStore.InMemoryJobStore.ScheduleCleanup | api/job_store.py:143-170 | Cancels an existing timer and arms a new one |
| JobStore.InMemoryJobStore.CancelCleanupOf | api/job_store.py:137-141 | Cancels the timer of a job if there is one |
| JobStore.InMemoryJobStore.DeleteJob | api/job_store.py:129-135 | Drops the record and the timer |
| JobStore.InMemoryJobStore.Clear | api/job_store.py:279-286 | Drops all records and cancels all timers of the table |
| JobStore.InMemoryJobStore.Fire | api/job_store.py:153-157 | A due timer drops its job and its handle |
| JobStore.StepPaired | api/job_store.py:110-170 | Every operation keeps handles and live timers the two directions of one bijection |
| JobStore.OneTimerIffTerminal | api/job_store.py:110-178 | Over every history a job has at most one live timer, and has one exactly when its last status update was terminal and it was not dropped since |
| JobStore.TerminalUpdateRestarts | api/job_store.py:120-123 | Every update to completed or failed gives the job a new timer and ends an earlier one; other jobs keep theirs |
| JobStore.FiringIsSafe | api/job_store.py:153-157 | A timer that fires drops a job whose latest status is terminal, and no other job |
| JobStore.FieldsMerge | api/job_store.py:110-127 | Over every history each field of a job holds the last value given to it since the job was last dropped, whatever other updates did |
| JobStore.StoredStatus | api/job_store.py:110-127 | The stored status is the last one given, unless a None was stored over it |
| JobLifecycle.ExactlyOneTerminalEvent | api/main.py:1735-1843 | Over every interleaving of deadlines, success, failure and exception, a call that ran to its end emitted exactly one terminal event, as its last, and the overtime notice at most once |
| JobLifecycle.StepTells | api/main.py:1735-1843 | After any schedule, each coroutine step that can be taken leaves the stated status, events, workflow and supervisor, and the subscription untouched |
| JobLifecycle.BeginsPending | api/main.py:1735-1739 | A job begins pending, with no events, and the supervisor waiting for the first of its deadlines |
| JobLifecycle.CompletedIffSucceeded | api/main.py:1735-2521 | Over every schedule the status is completed, and the last event `job.completed`, if and only if the workflow has succeeded; every other ended call announced a failure |
| JobLifecycle.HardLimitCancels | api/main.py:1775-1823 | The workflow is cancelled if and only if the hard limit passes before it is over, and then the call ends failed |
| JobLifecycle.CancelledWorkflowIsSilent | api/main.py:1775-1823 | After the hard limit no step but the supervisor's report writes a status or emits an event |
| JobLifecycle.FinalStatus | api/main.py:2494-2519 | At the end the status is the one announced, unless the soft deadline fell between failed status and failed event: exactly then it stays "running" |
| JobLifecycle.StaysRunning | api/main.py:1745-1763 | A concrete schedule that leaves a failed job running, for every configuration that announces the soft deadline |
| JobLifecycle.CanStayRunningIff | api/main.py:1740-1749 | Some schedule leaves a failed job running if and only if the soft deadline is set and comes before the hard limit, or there is no hard limit |
| JobLifecycle.NoDeadlock | api/main.py:1739-1843 | A call that has not ended has a coroutine that can be resumed, and a resumption that brings it nearer to its end |
| JobLifecycle.CanFinish | api/main.py:1739-1843 | Every schedule can be extended to one in which the call has ended |
| JobLifecycle.MissedOnlyByPoll | api/job_store.py:239-275 | A subscription that ended by itself without a terminal event ended on a poll: before the event of a failed run, over pending events, or on a queue made after the event |
| JobLifecycle.DeliveredIff | api/job_store.py:239-275 | Over every schedule of subscriptions one after the other, one that ends by itself after a success has received `job.completed` if and only if no step of the schedule is a poll, by it or by an earlier one, that reads the status completed |
| JobLifecycle.PollEndsIff | api/job_store.py:256-265 | A poll ends a live subscription, dropping its queue, if and only if it reads completed or failed; otherwise it changes nothing |
| JobLifecycle.OverAfterTakes | api/job_store.py:248-265 | When the call has ended, a live subscription outlasts n takes and a poll if and only if the status is neither completed nor failed and the takes leave something queued or nothing was; so with a terminal status one poll ends it |
| JobLifecycle.AttachTells | api/job_store.py:251-253 | Attaching gives a subscription the queue there is, with nothing received |
| JobLifecycle.TakeTells | api/job_store.py:254-259 | A take hands over the oldest event and, when that is `job.completed` or `job.failed`, ends the subscription with its queue |
| JobLifecycle.LeaveTells | api/job_store.py:270-275 | A client that leaves drops the queue and touches nothing of the job |
| JobLifecycle.EmptyPollsMissNoSuccess | api/main.py:2466-2491 | No suspension separates the completed status from its event: when polls time out on empty queues only and nobody subscribes after the event has been dropped with its queue, no poll reads the status completed |
| JobLifecycle.LosesCompleted | api/job_store.py:248-260 | A concrete schedule: a subscriber attached from the start that took everything loses `job.completed` to a poll that times out as the event is put |
| JobLifecycle.SuccessIsDelivered | api/job_store.py:239-275 | After a success a subscription that ended by itself lacks `job.completed` exactly when it ended on a poll over pending events or on a queue made after the event |
| JobLifecycle.SuccessReachesSubscriber | api/job_store.py:239-275 | When no poll times out over pending events and nobody subscribes after the event has been dropped with its queue, every subscription that ends by itself after a success has received `job.completed`, whatever overflowed |
| JobLifecycle.ReceivesSince | api/job_store.py:239-275 | In every schedule a subscription receives an ordered selection of the events emitted since the one before it ended |
| JobLifecycle.TooLate | api/job_store.py:270-275 | Once the terminal event has been dropped with its queue, every later subscription receives nothing, however the schedule goes on |
| JobLifecycle.ScheduleInv | api/main.py:1735-2521 | Tasks, status, events, queue and subscription agree after every schedule |
| JobLifecycle.LogKeeps | api/main.py:1739-1843 | Every coroutine step keeps tasks and status in agreement with the events emitted so far |
| JobLifecycle.TakenIsLast | api/job_store.py:248-253 | The event a subscriber takes is terminal exactly when the call is settled and nothing is queued behind it |
| JobLifecycle.PutAllKeepsSuffix | api/job_store.py:209-237 | The queue stays the newest part of the log through any list of emits |
| SseWire.ParseBlock | frontend/src/main.js:241-249 | The loop over the lines of a block yields the last event name and the joined data lines |
| SseWire.BlockMeans | frontend/src/main.js:241-249 | Any block is read as the trimmed rest of its last `event:` line, "message" without one, and as the trimmed rests of exactly its `data:` lines, in order, joined by line breaks |
| SseWire.TrimIsTrimmed | frontend/src/main.js:246-247 | Trimming cuts white space, all of it and nothing else, at both ends |
| SseWire.JoinBreaks | frontend/src/main.js:249 | Joining puts one line break between two pieces |
| SseWire.ParseSSE | frontend/src/main.js:237-252 | One call yields the events of the complete blocks in order and the unfinished rest |
| SseWire.Feed | frontend/src/main.js:300-306 | Feeding any segmentation of a text with carried-over rest gives the events and rest of the whole text |
| SseWire.ConcatJoins | frontend/src/main.js:300-306 | The whole text of a list of chunks: one chunk is itself, and two lists one after the other are their texts joined |
| SseWire.ParsedAppend | frontend/src/main.js:302-306 | Parsing in two steps with the rest carried over is parsing at once |
| SseWire.StreamRoundTrip | api/main.py:2607-2608 | Parsing the concatenation of packed events gives exactly these events in order, with nothing left |
| SseWire.SurvivesIffClean | api/main.py:2607-2608 | One packed event is read back as itself if and only if name and payload are one line without white space at the ends |
| SseWire.DoneFrame | api/main.py:2921-2922 | The closing frame is read as the event `done` with payload `[DONE]` whatever follows |
| SseWire.PackThen | api/main.py:2917-2920 | A packed event in front of any text is read first and leaves the text to the rest |
| AgentGraph.StepIsSafe | tradingagents/graph/conditional_logic.py:71-102 | From every invariant state each router returns a label of its own edge map, and the invariant is kept |
| AgentGraph.EveryRunReachesEnd | tradingagents/graph/setup.py:227-278 | From Bull Researcher every run, whatever the configuration and the verdicts, goes along the compiled edges and ends with one to END |
| AgentGraph.WholeRun | tradingagents/graph/conditional_logic.py:71-102 | For every configuration and all verdicts the run is exactly the alternating debate, the manager and one risk round more than there are revisits |
| AgentGraph.RunIsBounded | tradingagents/graph/conditional_logic.py:94-102 | At most max(1,2R) + 1 + (max_retries + 1)(2 + max(1,3K)) node executions; trader and judge run equally often, at most max_retries + 1 times |
| AgentGraph.RevisitsAreLeading | tradingagents/graph/conditional_logic.py:94-102 | The number of returns to the trader: leading "revise" verdicts, up to the limit and no fewer |
| AgentGraph.DebateTrace | tradingagents/graph/conditional_logic.py:71-80 | From any turn of the research debate the remaining turns follow in order and then the manager |
| AgentGraph.RiskTrace | tradingagents/graph/conditional_logic.py:82-92 | From any turn of a risk debate the remaining turns follow in order and then the judge |
| AgentGraph.OneRound | tradingagents/agents/managers/risk_manager.py:98-108 | One round from the trader on, and whether the verdict leads to another or to the end |
| AgentGraph.RoundsTrace | tradingagents/agents/trader/trader.py:69-83 | From the trader on there is one round and one more for every revisit |
| AgentGraph.DebateIsFair | tradingagents/graph/conditional_logic.py:71-80 | R rounds give bull and bear R turns each |
| AgentGraph.RiskIsFair | tradingagents/graph/conditional_logic.py:82-92 | K rounds give each risk analyst K turns |
| AgentProgress.AgentProgressTracker.SetStatus | api/main.py:1462-1479 | Sets the status and emits one event naming the previous one, or nothing when it stays |
| AgentProgress.AgentProgressTracker.Snapshot | api/main.py:1455-1460 | One row a member of the table, in order, with its status |
| AgentProgress.AgentProgressTracker.constructor | api/main.py:1388-1396 | Every member is pending, the unselected analysts are skipped |
| AgentProgress.AgentBoard.UpdateAgentStatus | frontend/src/main.js:262-269 | Changes the status on one card, making the card if needed; ignores an empty agent or status |
| AgentProgress.AgentBoard.UpdateAgentSnapshot | frontend/src/main.js:271-279 | Puts every named row on its card |
| AgentProgress.BoardFollowsTracker | frontend/src/main.js:262-279 | After a snapshot and any changes, whatever was shown before, each member's card shows the tracker's status if and only if that is not the empty string |
| AgentProgress.SeenOnCard | frontend/src/main.js:271-279 | A snapshot puts the team and status of an agent's last row on its card, a dash and "pending" where they are missing, and leaves other cards alone |
| AgentProgress.ToldOnCard | frontend/src/main.js:262-269 | Events put the last status told on a card and keep its team, make a card with a dash where there was none, and leave other cards alone |
| AgentProgress.NoNamelessCard | frontend/src/main.js:262-279 | A row or an event without an agent makes no card |
| AgentProgress.EventsChain | api/main.py:1462-1479 | Every event names the status the earlier events left its agent with, and changes it |
| AgentProgress.SuccessiveEventsChain | api/main.py:1475-1479 | Successive events of one agent chain through `previous_status` and always change the status |
| AgentProgress.EventsTellAll | api/main.py:1462-1479 | The last event of an agent, or its first status, is what the tracker holds |
| Scheduler.ScheduledAnalyses.ClaimPendingTasks | scheduler/main.py:302-322 | Every pending task and no other is dated today and marked running |
| Scheduler.ScheduledAnalyses.MarkRunSuccess | api/services/scheduled_service.py:329-337 | Writes the claimed day, the status and the report and resets the failures of one row |
| Scheduler.ScheduledAnalyses.MarkRunFailed | api/services/scheduled_service.py:340-349 | Writes the claimed day, adds a failure and deactivates at three |
| Scheduler.ScheduledAnalyses.RecordManualTestResult | api/services/scheduled_service.py:352-370 | Writes status and report, resets failures on success, leaves day and activity alone |
| Scheduler.ScheduledAnalyses.UpdateScheduled | api/services/scheduled_service.py:98-106 | Applies an edit as a whole or, when a value is refused, not at all |
| Scheduler.ClaimedOnceIff | scheduler/main.py:296-329 | Over every run of ticks, results, losses, tests, edits and deletion, the claimed days strictly increase if and only if, once the result of an earlier day has come in late, no tick of the loop on the day of the last claim finds the task active with its time come |
| Scheduler.NoDayClaimedTwice | scheduler/main.py:302-329 | No day is claimed twice when each result is recorded before the task is claimed for a later day |
| Scheduler.LateResultClaimsAgain | api/services/scheduled_service.py:329-349 | Without that, a concrete run claims a day twice |
| Scheduler.AlwaysDated | api/services/scheduled_service.py:315-349 | The row carries the day of the last claim exactly when no late result has set it back |
| Scheduler.FailuresSinceReset | api/services/scheduled_service.py:329-370 | There is exactly one place where the stretch since the last success, manual success or reactivation begins; the counter is the number of scheduled failures from there on, at most two for an active task |
| Scheduler.RowIsWritten | api/services/scheduled_service.py:98-370 | After any steps, a tick, result, test, edit or deletion leaves in each field of the row exactly the stated value, and a refused edit none of its own |
| Scheduler.LastWriteStays | api/services/scheduled_service.py:329-370 | Over every run the report and the status of a row are those of the last step that wrote one |
| Scheduler.ThirdFailureDeactivates | api/services/scheduled_service.py:346-348 | Apart from edits, a task stops being active exactly at its third failure in a row |
| Scheduler.DueIsClaimed | scheduler/main.py:296-300 | No validated time falls where the loop sleeps: at its own minute of a trading day an active task is claimed unless it carries that day |
| ScheduleQuota.UserSchedule.EnsureScheduledForSymbols | api/services/scheduled_service.py:148-209 | Created, existing and skipped are the specified parts of the distinct inputs, each in input order; an invalid horizon or time changes nothing |
| ScheduleQuota.UserSchedule.AddMissing | api/services/scheduled_service.py:159-200 | The loop creates the first free-slot-many new symbols and skips the rest, in input order |
| ScheduleQuota.EverySymbolOnce | api/services/scheduled_service.py:172-197 | Each distinct symbol is existing exactly when it was scheduled, else created or skipped |
| ScheduleQuota.FirstComeFirstServed | api/services/scheduled_service.py:172-197 | Created, existing and skipped are each in the order in which their symbols are first given, and whatever is created is given before anything skipped |
| ScheduleQuota.NormalIsStripped | api/services/scheduled_service.py:176 | The normal form is the text without the white space at its ends, letter by letter in upper case |
| ScheduleQuota.DistinctIsSet | api/services/scheduled_service.py:173-176 | The distinct symbols are the non-empty normal forms, without repetition |
| ScheduleQuota.WithinQuota | api/services/scheduled_service.py:166-197 | The total never passes the larger of the limit and what was there; something is skipped only when the quota is full |
| ScheduleQuota.AgainCreatesNothing | api/services/scheduled_service.py:148-209 | The same request again creates nothing, whatever was skipped |
| ScheduleQuota.StaysUnique | api/services/scheduled_service.py:179-195 | A user's symbols stay unique |
| MiniQmtSync.MiniQMTSyncService.Run | api/services/miniqmt_sync_service.py:317-423 | A run ends completed, with progress equal to the announced total, that total equal to the number of its records, and each record telling whether its own download returned or raised, or failed; it completes if and only if there are symbols and every save succeeded but for the first error note of a stage without its library call; progress shown never fell or passed the total |
| MiniQmtSync.MiniQMTSyncService.DownloadAll | api/services/miniqmt_sync_service.py:367-406 | The per-symbol downloads add exactly their units and records whichever of them fail |
| MiniQmtSync.MiniQMTSyncService.MarkStageSymbols | api/services/miniqmt_sync_service.py:247-271 | A stage records every symbol, publishes in batches and ends at the stage's full count |
| MiniQmtSync.MiniQMTSyncService.CallStage | api/services/miniqmt_sync_service.py:337-345 | A stage is complete when its call returns, failed when it raises; without the call it is unsupported if and only if the note of that is saved, and fails the run only when the second note is not saved either |
| MiniQmtSync.MiniQMTSyncService.RunStage | api/services/miniqmt_sync_service.py:332-348 | A stage fails the run if and only if a save other than that first note fails; otherwise it records every symbol and has made a known number of saves |
| MiniQmtSync.StagesAsRecorded | api/services/miniqmt_sync_service.py:332-366 | In a finished run the records of a stage say unsupported if and only if the call is missing and the save of that note, whose number is given, succeeded |
| MiniQmtSync.MiniQMTSyncService.CountUnits | api/services/miniqmt_sync_service.py:324-328 | The units announced are the units the stages do |
| MiniQmtSync.MiniQMTSyncService.Start | api/services/miniqmt_sync_service.py:147-168 | Refuses an unknown type or a busy service without change, else starts afresh with distinct types |
| MiniQmtSync.MiniQMTSyncService.InspectLocalCache | api/services/miniqmt_sync_service.py:425-476 | The batched inventory covers every symbol and merges what is cached, or gives up and leaves the records alone |
| MiniQmtSync.RisingMeans | api/services/miniqmt_sync_service.py:170-190 | What is meant by progress that never falls or passes its total: every published value is at most every later one and at most the total |
| MiniQmtSync.SavedButMeans | api/services/miniqmt_sync_service.py:95-99 | What is meant by every save but two: each save of the range, other than the ones numbered, succeeded |
| MiniQmtSync.EveryRecord | api/services/miniqmt_sync_service.py:329-406 | A finished run has exactly one record for every symbol and selected type, ETF records for ETFs only; a download is complete if it returned and failed if it raised |
| MiniQmtSync.FinishedTellsAll | api/services/miniqmt_sync_service.py:332-406 | The same with the stages: complete when the call returns, failed when it raises, and without the call unsupported or failed by whether the note was saved |
| MiniQmtSync.TotalIsRecords | api/services/miniqmt_sync_service.py:324-328 | The announced total is the number of records a finished run leaves |
| MiniQmtSync.StageSavesAre | api/services/miniqmt_sync_service.py:288-296 | A stage saves once to begin, once or twice for its error, and once for every fifty symbols begun |
| MiniQmtSync.SelectedAre | api/services/miniqmt_sync_service.py:148-151 | A request selects each named type once, and all five when it names none |
| MiniQmtSync.InventoryTells | api/services/miniqmt_sync_service.py:458-464 | An inventory records the cached symbols as complete daily data and changes no other record |
| MiniQmtSync.ReadableByHundreds | api/services/miniqmt_sync_service.py:434-440 | The inventory is read in batches of a hundred |
| MiniQmtSync.OutstandingIffBusy | api/services/miniqmt_sync_service.py:129-168 | A task is outstanding exactly when the status is running or inspecting, and never more than one, for as long as neither a synchronisation's first save nor a task's last save fails, and no longer |
| MiniQmtSync.ControlTells | api/services/miniqmt_sync_service.py:129-168 | After any steps a request, inspection, end, exception or report leaves the stated status, tasks and inventory mark |
| MiniQmtSync.StuckRunning | api/services/miniqmt_sync_service.py:154-166 | After a failed first save the service stays "running" without a task whatever follows |
| TradeCalendar.TradesByListOrWeek | tradingagents/dataflows/trade_calendar.py:49-54 | Within the span of the list a day trades if and only if it is listed; every other day if and only if it is among the first five of its week, counted from day 1 |
| TradeCalendar.SaturdayIn2000 | tradingagents/dataflows/trade_calendar.py:54 | 1 January 2000 and the day after did not trade by the week, the next day did, and a listed Saturday does |
| TradeCalendar.Next | tradingagents/dataflows/trade_calendar.py:116-121 | For any list of dates the walk forward ends, at the first trading day |
| TradeCalendar.Previous | tradingagents/dataflows/trade_calendar.py:57-63 | For any list of dates the walk back ends, at the last trading day before |
| TradeCalendar.PreviousCnTradingDay | tradingagents/dataflows/trade_calendar.py:57-63 | The loop terminates and returns that day |
| TradeCalendar.NextCnTradingDays | tradingagents/dataflows/trade_calendar.py:111-122 | The loop terminates and collects the days; a negative count is refused |
| TradeCalendar.ExactlyTheFirst | tradingagents/dataflows/trade_calendar.py:111-122 | The result is the one ascending list of n trading days after the start that skips none |
| TradeCalendar.DaysCompose | tradingagents/dataflows/trade_calendar.py:111-122 | m + n days are m days and then n more |
| TradeCalendar.StepsInvert | tradingagents/dataflows/trade_calendar.py:57-63 | A step forward and back, or back and forward, returns to the day if and only if it trades |
| TradeCalendar.LatestIsLastBar | tradingagents/dataflows/trade_calendar.py:89-108 | The latest data date is the last day up to the request that trades, is not in the future and has opened |
| TradeCalendar.PhaseByClock | tradingagents/dataflows/trade_calendar.py:66-86 | On a trading day it is in session from 9:30 to 11:30 and from 13:00 to 15:00, with the lunch break between, by the clock |
| TradeCalendar.LatestIsIdempotent | tradingagents/dataflows/trade_calendar.py:89-108 | Asking again for the answer gives the answer |
| TradeCalendar.LatestIsMonotone | tradingagents/dataflows/trade_calendar.py:89-108 | A later request never gets an earlier date |
| PortfolioImport.ImportedPortfolio.SyncPositions | api/services/portfolio_import_service.py:33-160 | After an import every row of a submitted symbol has, field by field, the submitted value or its earlier one, the value at the current price where there is one, and a missing percentage as its share of what the source is worth after the import; every other row is unchanged; the schedule grows by the held symbols; without a valid symbol nothing changes |
| PortfolioImport.SyncTells | api/services/portfolio_import_service.py:71-148 | The table after an import, row by row and field by field, in terms of the submission, the prices and the rows before |
| PortfolioImport.NewRowsInOrder | api/services/portfolio_import_service.py:118-135 | New rows come in the order in which their symbols are first submitted |
| PortfolioImport.HeldAre | api/services/portfolio_import_service.py:150-156 | The symbols handed to the schedule are exactly those of the submission with a positive quantity, in its order |
| PortfolioImport.CleanNameIs | api/services/portfolio_import_service.py:62 | A name loses the white space around it and is none when nothing else is in it |
| PortfolioImport.SourceOfIs | api/services/portfolio_import_service.py:50 | The source is the stripped text, "manual" without one |
| PortfolioImport.ImportedPortfolio.Upsert | api/services/portfolio_import_service.py:118-148 | Existing rows are merged in place, new ones appended in order |
| PortfolioImport.TotalValue | api/services/portfolio_import_service.py:94-106 | The total counts every row of the source once, with the submitted value if there is one, and every new symbol |
| PortfolioImport.ShareIsPercentage | api/services/portfolio_import_service.py:105-111 | Before it is rounded, a percentage worked out by the import is a share of the complete portfolio of its source: above zero, at most a hundred |
| PortfolioImport.StoredPercentage | api/services/portfolio_import_service.py:105-111 | For a rounding that keeps order and leaves 0 and 100 alone, a position without a percentage gets one exactly when it has a positive value, and it lies between zero and a hundred |
| PortfolioImport.WriteRow | api/services/portfolio_import_service.py:118-148 | The field-by-field write replaces what was given and keeps the rest; a new row takes every field |
| PortfolioImport.CleanPositions | api/services/portfolio_import_service.py:55-69 | The cleaning loop builds the keyed submission |
| PortfolioImport.LastOccurrenceWins | api/services/portfolio_import_service.py:53-69 | The last occurrence of a symbol is the one that counts |
| PortfolioImport.KeptWasSubmitted | api/services/portfolio_import_service.py:53-69 | Every symbol kept was submitted and has a last occurrence |
| PortfolioImport.SyncIsUpsert | api/services/portfolio_import_service.py:88-148 | By user, source and symbol: submitted keys get their merged or new row, every other row stays what it was |
| PortfolioImport.SyncKeepsUnique | api/services/portfolio_import_service.py:88-148 | The key of a row stays unique |
| PortfolioImport.SyncTwice | api/services/portfolio_import_service.py:71-148 | The same import again, at the same prices and moment, changes nothing, percentages included |
| PortfolioImport.NormalForm | api/services/portfolio_import_service.py:284-300 | An accepted symbol becomes a full code, and a full code stays as it is |
| PortfolioImport.SymbolOf | api/services/portfolio_import_service.py:284-300 | Accepted are full codes, as they are, and six digits whose exchange the first of them tells |
| PortfolioImport.ImportedPortfolio.DeleteImportedPositions | api/services/portfolio_import_service.py:239-277 | Removes the user's rows of the listed symbols over all sources and reports which were there; an invalid or empty list changes nothing |
| PortfolioImport.DeleteLeaves | api/services/portfolio_import_service.py:259-271 | A deletion leaves exactly the other rows, in order |
| PortfolioImport.PresentAre | api/services/portfolio_import_service.py:268-276 | Reported as deleted, or as missing, are exactly the listed symbols the user held in some source, or in none, in the order of the list |
| PortfolioImport.SymbolsAre | api/services/portfolio_import_service.py:247-255 | The list of a deletion has every given symbol once |
| PortfolioImport.DeleteUndoesImport | api/services/portfolio_import_service.py:239-277 | Deleting what was imported restores the table when the user held none of it before |

## Left out

- Network numerics, attention, softmax and float rounding: the model and the sampler are arbitrary functions, probabilities arbitrary non-negative reals, the two roundings of the import arbitrary functions.
- The 64-bit range of the codec indexes: indexes are unbounded naturals.
- Averaging the samples of a forecast and the un-normalising of its result (`kronos_service/model/kronos.py:465-469`).
- DataCollector.DataCollector.Collect: is the undisturbed call; interference is covered by the interleaved steps of the same module, in which a thread evicts only after it took a reference; runs without that discipline are `LooseRun`.
- The table from jobs to queues in the job store: a queue is modelled alone (`EventQueue`) or with one subscription at a time (`JobLifecycle`); dropping it on delete or clean-up is not modelled.
- Calls of the job store from outside the event loop, whose timer arming is deferred (`api/job_store.py:171-178`), and the Redis job store.
- JobLifecycle.ExactlyOneTerminalEvent: assumes that a cancelled workflow ends by its cancellation (no library swallows it) and that the supervisor itself is not cancelled; database records of a job and work a thread finishes after a hard timeout are not modelled.
- JobLifecycle.DeliveredIff: is about subscriptions one after the other; several at a time, sharing a queue, are not modelled.
- The recursion limit of the graph library and the analysts before Bull Researcher; `setup_graph`, which fills dictionaries, is modelled by the edges it leaves (`Targets`).
- AgentProgress.BoardFollowsTracker: is about the messages of one tracker; the two trackers of a dual-horizon job write to the same cards.
- The text of a trigger time and of a request is read before the model begins: times are pairs of numbers, symbols in the quota and the import are stripped and upper-cased for ASCII.
- Restart of the scheduler, its recovery of stale tasks and its concurrency slots (`scheduler/main.py:337-378`), more than one scheduler, and creating a task beyond its first row.
- MiniQmtSync.MiniQMTSyncService.Run: dates, messages and the list of error texts are not modelled, only whether a note is saved; the interleaving with requests is the state machine of `OutstandingIffBusy`.
- The bounds of Python's dates (years 1 to 9999) in the calendar walks, and symbols and reasons in words.
- Row identities, trade points and creation times of imported positions, and the listing of positions.
- Data vendors, prompts, extraction of verdicts from text, HTTP endpoints, authentication, notifications, user interface and back-test statistics.
