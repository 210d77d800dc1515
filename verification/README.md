# Liminal: a verified model of its state machines

Liminal is a harness that runs language-model agents. This project models the parts of it that keep
state across awaits, crashes and retries, and proves what they guarantee. The modules follow the
source files:

| module | what it models |
|---|---|
| `Conversation`, `Compression`, `Tiers`, `Masking`, `ContextManager`, `CompressionCache`, `ShownText` | the conversation of an agent and how it is shortened: old tool rounds replaced by summaries, tool bodies masked or elided, and what the model then reads |
| `CompensationLedger`, `CompensationUndo` | the undo log of file writes and its playback |
| `StreamRetry`, `RetryDecisions` | the retry loop around model requests, and when a failed request is tried again |
| `ToolBatch`, `ToolReplies` | the bookkeeping that answers every tool call of a round, and what the answers say |
| `PathMutex` | the queue that serialises writes to one path |
| `Dispatcher`, `DispatchSteps`, `CircuitCauses`, `FailureCounts` | circuit breaker, result cache, shared runs and locks of tool dispatch, what stands behind an open circuit, and which failures count |
| `ToolArgs`, `ToolValidation` | coercion and validation of tool arguments |
| `ChatMetadata`, `ChatProgress` | the promise chain that serialises the metadata updates of a chat |
| `ChatTitles`, `TitleTiming`, `TitleSuccess`, `TitleRuns`, `KeptTitles` | titles that arrive late, when they are asked for, what holds over all their runs, and what they may replace |
| `JsonPointer`, `JsonPaging`, `JsonLimits` | JSON Pointers and byte-budgeted pages of a JSON artifact |
| `SessionReplay`, `ReplayedRows`, `Hydration` | rebuilding a transcript from a session log, what it shows, and the messages a harness starts again with |
| `Download`, `DownloadRequests` | the resumable download of model files |
| `AccountDirectory`, `AccountMatching`, `AccountStatus` | the store of saved accounts: which account a save is about and what it records |
| `ExecutionState`, `ContractDates` | the contracts of a plan and the pointer to the active one |
| `BinaryHeader`, `HeaderAcceptance` | the prefix decoder for NetImmerse headers |
| `Numerals`, `Common` | decimal numerals and the option type |

Code that works by changing state is a class or a loop whose contract ties its new state to a
specification function; what the source promises is proved about that function. Concurrency is
modelled by cutting an asynchronous function at its awaits: a list of events is one interleaving, and
the theorems hold for every list. Clocks, servers, model answers, hashes, archive outcomes, token
counts and error classes are parameters, so the theorems hold whatever they return; nothing is assumed
of a hash except where a lemma says so.

## Findings

Where a promise does not hold of the code, the code is modelled as it is, a lemma gives a run that
breaks the promise, and another says exactly when it holds.

- Compression with `keepRecentRounds` 0 can move its summary in front of the question
  (`SummaryCanMoveToFront`, `SummaryInPlaceIff`).
- Two writes to one file recorded in the same step and millisecond are undone in the wrong order
  (`SameTickIsNotUndone`, `UndoRestoresIff`).
- Stale route pins, managed authentication refresh and a local key on a managed URL reset the retry
  loop without limit (`StalePinIsUnbounded`, `AuthRenewalIsUnbounded`, `SwitchingIsUnbounded`). Without
  the first two, which reset for free, a call ends exactly under the settings named in `CallEndsIff`, and
  `CallIsBounded` gives the bound.
- An error other than an abort leaves the calls of a batch without tool messages
  (`BreakLeavesUnanswered`, `AnsweredOnceIff`, `EveryIdAnsweredIff`).
- Starting a send clears the write queue map, also while a write is queued or running
  (`ClearLetsTwoRun`, `ClearIsSafeIff`).
- A file committed so that it survives later failures is rolled back by an entry that spells its path
  differently (`RespelledCommitIsUndone`, `CommittedSurvivesIff`).
- A count update that throws removes the pending mark of another request for the same chat
  (`FailedCountKeepsMarksIff`). A second request can then open beside the first
  (`FailedCountAllowsSecondRequest`), but not before fifteen minutes after the turn that
  opened the first (`SecondRequestIsLate`), far longer than the 6 s the title client waits.
- A call id that restarts while open leaves a tool row without an outcome in the replayed transcript;
  the comment at `packages/core/src/chat_session_replay.ts:46-49` promises completed rows only
  (`RestartShowsUnfinished`, `FinishedIffNoRestart`).
- A refusal says that the circuit is open after three consecutive failures
  (`packages/core/src/dispatcher.ts:409`), but the streak counts dispatches: one failing run shared by
  three opens it (`SharedFailureOpensCircuit`). Three different failures stand behind every open circuit
  exactly for tools that are not cacheable or need approval (`OpenCircuitHasThreeCausesIff`).
- The comment at `packages/core/src/dispatcher.ts:403` says that a tool whose circuit is open is
  rejected, but a dispatch that entered before still runs (`HandlerCanStartWhileOpen`,
  `ProceedsWhileOpenIff`).
- The comment at `packages/core/src/dispatcher.ts:294-297` promises fresh reads after a write, but a
  read in flight is cached after the invalidation (`InvalidationIsLastingIff`).
- Coercion repairs arguments before they are validated (`packages/core/src/tool_arg_coerce.ts:43-45`), but
  it also spoils valid ones: a list of texts one of which reads like an object (`EncodedItemIsRefused`,
  `ValidIsKeptIff`), and a number in a union whose integer branch comes first (`UnionTruncates`,
  `UnionKeepsIff`).
- Account names cut at 160 characters can be listed twice, and an account that was renamed can be
  written over under its first name (`CutNameIsListedTwice`, `SaveKeepsUniqueIff`,
  `RenamedAccountIsOverwritten`, `WeakSaveLosesIff`).
- Completing a contract other than the active one activates a second contract while another is still
  planned (`StaysSoleActiveIff`).
- A header whose first 160 bytes hold no newline is never rejected (`LongLineAsksForEver`).

## Model

| member | source | states |
|---|---|---|
| `Conversation.ExtractRounds` | packages/core/src/context.ts:43-140 | The loop over the conversation yields every assistant message with tool calls, with the indices of its results up to the next user or assistant message, its digest and its error mark: exactly `RoundsFrom`. |
| `Conversation.FindResult` | packages/core/src/context.ts:111-124 | The body looked up for a call is that of the first tool message with its id anywhere in the list. |
| `ShownText.RoundsAre` | packages/core/src/context.ts:43-90 | Every assistant message that makes calls begins one round, in order, and nothing else does; a round has the results up to the next user or assistant message, an error if one begins so, and thinks or plans by the names of its calls. |
| `ShownText.ResultsAre` | packages/core/src/context.ts:74-90 | The results of an exchange are the messages at the indices of its round. |
| `ShownText.LinesAre` | packages/core/src/context.ts:92-126 | A digest has one line per call of the round, with the name and arguments of the call and the first result for its id. |
| `Conversation.ScanResults` | packages/core/src/context.ts:74-91 | The scan after a call collects exactly the results of that call before the next user or assistant message, and whether one of them is an error. |
| `Conversation.PairedIffOwned` | packages/core/src/context.ts:50-91 | "No orphans" means: every tool result has a call of its own before it, with no user or assistant message in between. Both directions. |
| `Compression.SelectRounds` | packages/core/src/context.ts:695-706 | The rounds chosen are those older than the last `keepRecent` that neither think, plan nor hypothesize. |
| `Compression.CollectRemoved` | packages/core/src/context.ts:712-718 | The set of removed indices is exactly that of the chosen rounds. |
| `Compression.FirstRemoved` | packages/core/src/context.ts:718 | The insertion index is a removed index and the least of them. |
| `Compression.RebuildConv` | packages/core/src/context.ts:823-841 | The rebuilt list is every message not removed, in order, with the summaries where the first removed message was, or in front when nothing kept follows. |
| `Compression.RoundIdxsExactly` | packages/core/src/context.ts:712-717 | An index is removed exactly when it is a chosen call or a result whose call is chosen. |
| `Compression.KeptIsPaired` | packages/core/src/context.ts:823-841 | Removing whole rounds orphans no result. |
| `Compression.CompressionKeepsCalls` | packages/core/src/context.ts:695-718 | For every list, well formed or not: the calls left are those of the last `keepRecent` rounds and of older rounds that think or plan. |
| `Compression.CompressionKeepsExchanges` | packages/core/src/context.ts:695-841 | On a list without orphans: none arises, every surviving call keeps all its results, all other messages stay verbatim and in order, and the summaries appear once and contiguously. |
| `Compression.CompressionIsFixedPoint` | packages/core/src/context.ts:695-718 | Nothing is selected from the result of a compression. |
| `Compression.SummaryInPlaceIff` | packages/core/src/context.ts:823-841 | The summaries stand where the first removed round was if and only if a kept message follows that place or it is the head of the list. |
| `Compression.KeepingOneKeepsPlace` | packages/core/src/context.ts:686-718 | Keeping at least one recent round is enough for that. |
| `Compression.SummaryCanMoveToFront` | packages/core/src/context.ts:823-841 | With no recent round kept, the digest of the work can move in front of the question that asked for it. |
| `Tiers.BuildWarmTierMessages` | packages/core/src/context.ts:790-800 | Warm rounds become one message per block of at most four, in order. |
| `Tiers.WriteProvenanceArtifacts` | packages/core/src/context.ts:802-821 | One artifact write is attempted per warm block, under the id of that block. |
| `Tiers.BuildTiers` | packages/core/src/context.ts:720-743 | Either one cold message for all but the last warm rounds followed by warm messages, or warm messages only. |
| `Tiers.TiersPartition` | packages/core/src/context.ts:187-265 | Every compressed round lands in exactly one summary, in order; warm blocks hold at most four; turn ranges are contiguous, disjoint and cover all rounds. |
| `Tiers.IdsShownAreAttempted` | packages/core/src/context.ts:232-249 | The ids offered for re-reading are exactly those under which an artifact write was attempted. |
| `ShownText.BlocksAre` | packages/core/src/context.ts:790-800 | Block `k` digests rounds 4k to 4k + 3, the last one what is left, under their turns and their provenance id. |
| `Masking.FallbackMaskObservations` | packages/core/src/context.ts:848-891 | Maskable tool bodies are masked oldest first, sparing the recent messages, and the masking stops at the first prefix that brings the list under budget. |
| `Masking.CollectNames` | packages/core/src/context.ts:914-920 | The map from call id to tool name is that of the last call with the id. |
| `ShownText.ToolNameIs` | packages/core/src/context.ts:914-935 | A result is named by the last call with its id, or "tool" without one. |
| `Masking.ShapeKeepsPairing` | packages/core/src/context.ts:848-951 | Changing only the bodies of tool results neither creates nor removes an orphan. |
| `Masking.ShapeKeepsSkeletons` | packages/core/src/context.ts:848-951 | Such a change leaves the calls and the ids of their results as they were. |
| `Masking.MaskingKeepsShape` | packages/core/src/context.ts:848-891 | Masking changes bodies of tool results only, and only those it may touch. |
| `Masking.ElisionIsFixedPoint` | packages/core/src/context.ts:906-951 | A second elision with the same settings and archive outcomes changes nothing. |
| `ShownText.MaskedIs` | packages/core/src/context.ts:855-891 | Exactly the bodies before the cut that are neither shortened nor errors become masks; one of 400 characters or more that was archived says where, with a preview of 300. |
| `ShownText.ElidedIff` | packages/core/src/context.ts:906-951 | An elision pass rewrites exactly the results that are long enough, wanted and archived; the notice names tool, length, hash and path, with a preview of 400. |
| `ShownText.ElidedCountIs` | packages/core/src/context.ts:906-951 | The number returned is the number of such results. |
| `ContextManager.CompressionIsFaithful` | packages/core/src/context.ts:684-788 | A compressed request starts with the inception messages. The rest is the conversation up to tool bodies, message by message, or has exactly the surviving exchanges and every other message verbatim, in order, around one run of summaries. |
| `ContextManager.ContextManager.ComputeCompressedRounds` | packages/core/src/context.ts:684-788 | Computes such a request from either path, tiered or flat. |
| `ContextManager.ContextManager.ApplyContextPolicy` | packages/core/src/context.ts:320-326 | Replaces the limits, with a context length of at least 8192, and nothing else. |
| `ContextManager.ContextManager.CompressOldRounds` | packages/core/src/context.ts:665-682 | One call after the other: the cached request is reused exactly for the same inputs, as `Called` says, and is always a compression of the conversation given. |
| `CompressionCache.Cache.CompressOldRounds` | packages/core/src/context.ts:665-676 | Overlapping calls: a call awaits the cached computation if it is for the same key, and otherwise starts its own and caches that. |
| `CompressionCache.Cache.OnSettled` | packages/core/src/context.ts:677-681 | A resolved computation answers its caller; a rejected one throws, and is dropped from the cache only if it is still the cached one. |
| `CompressionCache.FailuresAreForgotten` | packages/core/src/context.ts:665-682 | Over every interleaving a call awaits a computation for its own key, and a rejected one is out of the cache once one of its callers has gone on. |
| `CompressionCache.NextCallSharesIff` | packages/core/src/context.ts:672-681 | The next call joins the last computation if and only if that is for the same key and no caller has seen it fail. |
| `CompressionCache.OneCallIs` | packages/core/src/context.ts:665-682 | A whole call that neither overlaps nor fails is answered with what `Called` makes of the cached request. |
| `CompressionCache.SequentialCallsAre` | packages/core/src/context.ts:665-682 | Over any sequence of such calls the cache of promises holds what the cache of one request holds. |
| `CompressionCache.AnsweredOnce` | packages/core/src/context.ts:665-682 | In any run a call is answered at most once. |
| `ContextManager.ContextManager.BuildMessages` | packages/core/src/context.ts:562-587 | From token counts, threshold and maximum alone: below the threshold the request is the whole layout, otherwise a compression of the conversation with working blocks and images where the layout puts them; either way it holds a faithful body, the conversation is unchanged, and where the blocks are system and user messages the whole request has no orphan. |
| `ContextManager.MaskingStopsInTime` | packages/core/src/context.ts:848-891 | Without rounds to compress, bodies are masked oldest first: whenever one was masked and another one follows, the list masked so far was still over the threshold; the last `keepRecentRounds` times two messages, twelve by default, are spared. |
| `ContextManager.SummariesShow` | packages/core/src/context.ts:718-781 | Flat compression leaves one digest of the selected rounds; tiers show each of them once and in order, the earliest in one cold message if they exceed the warm budget. |
| `ContextManager.CompressedRoundsAre` | packages/core/src/context.ts:684-705 | Compressed are exactly the rounds before the last `keepRecentRounds`, or before the hot ones where none are configured, that neither think nor plan. |
| `ContextManager.ContextManager.ForceCompress` | packages/core/src/context.ts:1000-1062 | The conversation becomes its compression with one summary, or stays when there is nothing to compress. |
| `ContextManager.ContextManager.ElideWhere` | packages/core/src/context.ts:906-951 | Rewrites in place exactly the tool bodies that are wanted, long enough and archived, and counts them. |
| `ContextManager.ContextManager.ElideOversizedToolBodies` | packages/core/src/context.ts:906-951 | Elides the bodies of at least 1000 characters, or the larger minimum asked for, of the tools that pass the filter. |
| `ContextManager.ContextManager.ElideStaleToolResults` | packages/core/src/context.ts:953-998 | Elides no result of the last rounds. |
| `ContextManager.ForcedStep` | packages/core/src/context.ts:1000-1062 | One forced compression keeps a list without orphans so and adds no call or result. |
| `ContextManager.AnyRunKeepsPairing` | packages/core/src/context.ts:906-1062 | Over any sequence of forced compressions and elisions no result is orphaned, and each call left has exactly the results it had at the start. |
| `ContextManager.ForceCompressIsIdempotent` | packages/core/src/context.ts:1000-1062 | A second forced compression is a no-op, for every conversation. |
| `CompensationLedger.Ledger.Record` | packages/core/src/compensation_ledger.ts:61-71 | Appends one entry unless disabled or the plan holds as many as are configured; no plan ever exceeds the cap. |
| `CompensationLedger.Ledger.Playback` | packages/core/src/compensation_ledger.ts:74-93 | Replays the entries in scope, latest step and latest time first, over the files, reports one outcome for each, and removes exactly those. |
| `CompensationLedger.Ledger.CommitPath` | packages/core/src/compensation_ledger.ts:99-110 | Drops the undo actions of the plan for the path and no other entry. |
| `CompensationLedger.Ledger.Clear` | packages/core/src/compensation_ledger.ts:112-114 | Drops the entries of the plan and no other. |
| `CompensationLedger.MaxActionsIs` | packages/core/src/compensation_ledger.ts:48-51 | The cap is the configured number from 1 to 256, 256 for a larger one and 32 without a positive one. |
| `CompensationLedger.OutcomeTells` | packages/core/src/compensation_ledger.ts:84-89 | The `k`-th outcome is a success exactly if its action can be undone in the files the earlier ones leave. |
| `CompensationLedger.CommitTakes` | packages/core/src/compensation_ledger.ts:99-110 | A commit takes exactly the deletions and restorations of the plan spelled like the path. |
| `CompensationLedger.ReplayOrderSorts` | packages/core/src/compensation_ledger.ts:78-80 | The replay order is a sorted permutation of the entries. |
| `CompensationLedger.RemainingByPlan` | packages/core/src/compensation_ledger.ts:90-91 | Playback leaves the entries of other plans untouched. |
| `CompensationLedger.PlaybackTakesReplayed` | packages/core/src/compensation_ledger.ts:81-91 | Playback takes exactly the entries it replays. |
| `CompensationLedger.CommittedByPlan` | packages/core/src/compensation_ledger.ts:99-110 | Committing a path touches one plan only and never adds an entry. |
| `CompensationUndo.LastReplayedIsLeast` | packages/core/src/compensation_ledger.ts:78-89 | The entry replayed last for a path is the least by step and time, the earlier one on a tie being replayed first. |
| `CompensationUndo.UndoRestoresIff` | packages/core/src/compensation_ledger.ts:61-93 | For every run of recorded writes, failed ones included, playback restores the files if and only if, path by path, the entry replayed last holds what the first one held. |
| `CompensationUndo.UndoIsInverse` | packages/core/src/compensation_ledger.ts:74-93 | With non-decreasing steps and times that increase within a step, playback restores the files exactly. |
| `CompensationUndo.SameTickIsNotUndone` | packages/core/src/compensation_ledger.ts:78-80 | Two overwrites in one step and one millisecond are undone in the wrong order, because the sort is stable. |
| `CompensationUndo.ScopedOrder` | packages/core/src/compensation_ledger.ts:78-83 | Filtering by step after sorting gives the sorted entries of that step. |
| `CompensationUndo.StepUndoIsInverse` | packages/core/src/compensation_ledger.ts:74-93 | Rolling back one step alone restores what the files were before it. |
| `CompensationUndo.CommittedSurvivesIff` | packages/core/src/compensation_ledger.ts:95-110 | A committed file survives every later playback, whatever it holds, whatever step is rolled back and whatever a reset does, if and only if each entry of the plan that may change it is a deletion or restoration spelled like the committed path. |
| `CompensationUndo.RespelledCommitIsUndone` | packages/core/src/compensation_ledger.ts:99-110 | An entry left under "./f" by a failed edit rolls back a committed write of "f". |
| `StreamRetry.Provider.StreamWithRetry` | packages/core/src/agent.ts:7544-7879 | The loop takes the decisions of `Drive` and makes exactly the requests of `Requests`: one per turn until the call is over, none while the circuit is open. |
| `StreamRetry.Provider.OneTurn` | packages/core/src/agent.ts:7546-7651 | One iteration renews the session, throws on an open circuit, or makes the request and handles its failure, as `Step` says. |
| `StreamRetry.Provider.OnFailure` | packages/core/src/agent.ts:7651-7879 | Each failure ends the call, or continues with the counters of `Step`. |
| `StreamRetry.Provider.TryActivateFallback` | packages/core/src/agent.ts:2317-2429 | Switches the provider at most once, under the conditions of the source. |
| `RetryDecisions.FailureContinuesIff` | packages/core/src/agent.ts:7651-7879 | A failure does not end the call if and only if an overflow can be rebuilt, a stale pin dropped, a busy proxy waited for, a session renewed, the managed route left, or an ordinary retry is allowed. |
| `RetryDecisions.AnswerMoves` | packages/core/src/agent.ts:7657-7874 | What each of these answers does to every counter, the circuit and the route. |
| `RetryDecisions.GivingUpMoves` | packages/core/src/agent.ts:7795-7855 | A failure that ends the call changes nothing, except that the one too many opens the circuit. |
| `RetryDecisions.SwitchIs` | packages/core/src/agent.ts:2317-2429 | When leaving managed inference succeeds, read off the settings and the route; failing changes nothing. |
| `RetryDecisions.StepAnswers` | packages/core/src/agent.ts:7547-7651 | A failed request is answered on the route that renewing the session before it left. |
| `RetryDecisions.ReplyEnds` | packages/core/src/agent.ts:7638-7650 | A reply ends the call after one more request and clears the failures of the provider. |
| `RetryDecisions.OpenCircuitThrows` | packages/core/src/agent.ts:7547-7551 | While the circuit is open the call throws without a request. |
| `RetryDecisions.FatalEndsAtOnce` | packages/core/src/agent.ts:7795-7804 | On a route that is not managed, an error that may not be retried and cannot be recovered ends the call after exactly one request. |
| `RetryDecisions.RetriesExactly` | packages/core/src/agent.ts:7785-7874 | A call that keeps meeting one ordinary error makes one request and as many retries as its kind allows, or as it takes to open the circuit, and throws. |
| `RetryDecisions.BusyRetriesExactly` | packages/core/src/agent.ts:7682-7725 | A managed proxy that stays busy and cannot be left is asked as often as its cap allows and once more. |
| `StreamRetry.StepDecreases` | packages/core/src/agent.ts:7657-7874 | With retry-forever off and no switch leading back to a managed URL, every step that continues lowers a measure built from resets, busy retries and attempts, unless the error resets for free. |
| `StreamRetry.RequestsAreBounded` | packages/core/src/agent.ts:7544-7879 | Under the same conditions any error sequence without free resets leaves the loop running for at most that measure. |
| `StreamRetry.CallIsBounded` | packages/core/src/agent.ts:7544-7879 | Under the same conditions a call makes at most (resets + 1) x (busy cap + retry cap + 1) requests, with at most three resets. |
| `StreamRetry.StalePinIsUnbounded` | packages/core/src/agent.ts:7670-7679 | A stale route pin error repeats for any number of requests. |
| `StreamRetry.AuthRenewalIsUnbounded` | packages/core/src/agent.ts:7738-7765 | So does an authentication error that a managed refresh answers. |
| `StreamRetry.CallEndsIff` | packages/core/src/agent.ts:7544-7879 | Whatever earlier calls left behind: the requests of a call are bounded over all error sequences without free resets if and only if retry-forever is off and the managed route, if it is one, neither is switched already nor can be switched to a local key on a managed URL. |
| `StreamRetry.SwitchingIsUnbounded` | packages/core/src/agent.ts:2317-2429 | Where such a switch leads back, spent budgets keep the call running for any number of requests. |
| `StreamRetry.RetryForeverIsUnbounded` | packages/core/src/agent.ts:7785-7802 | So does any retryable error once retry-forever is on. |
| `ToolBatch.Representatives` | packages/core/src/agent.ts:6263-6279 | Each call is represented by the first call with an equal key. |
| `ToolBatch.EnteredIds` | packages/core/src/agent.ts:6259 | The pending map holds each id of the batch once; with unique ids it is the batch in order. |
| `ToolBatch.Turn.LaunchStage` | packages/core/src/agent.ts:6422-6454 | Dispatches the next stage of distinct calls. |
| `ToolBatch.Turn.SettleCall` | packages/core/src/agent.ts:6422-6454 | Stores the result of one dispatched call. |
| `ToolBatch.Turn.FillDuplicates` | packages/core/src/agent.ts:6486-6505 | Every call gets the result of its representative. |
| `ToolBatch.Turn.ReplyNext` | packages/core/src/agent.ts:7006-7061 | Appends one tool message for the next call and deletes its id from the pending map. |
| `ToolBatch.Turn.FlushPending` | packages/core/src/agent.ts:3939-3944 | On abort or timeout, appends one interruption per pending call and clears the list. |
| `ToolBatch.AnsweredOnceIff` | packages/core/src/agent.ts:3938-3967 | When a batch of unique ids is over, its ids are answered once each and in order if and only if no error other than an abort came while some id had no reply. |
| `ToolBatch.EveryIdAnsweredIff` | packages/core/src/agent.ts:3938-3967 | For any batch, repeated ids included: when it is over, every id has a tool message if and only if no such error came. |
| `ToolBatch.PendingIs` | packages/core/src/agent.ts:3938-3967 | Ids are left pending in a closed batch if and only if such an error came, and then for good: nothing is enabled that would answer them. |
| `ToolBatch.NeverAnsweredTwice` | packages/core/src/agent.ts:6258-7061 | With unique ids no two tool messages carry the same id, at any await of any run. |
| `ToolBatch.DispatchedOnce` | packages/core/src/agent.ts:6263-6293 | No two dispatched calls have equal keys. |
| `ToolBatch.DuplicatesShareResult` | packages/core/src/agent.ts:6486-6505 | Equal calls carry equal results, that of the first of them. |
| `ToolReplies.RepliesAreResults` | packages/core/src/agent.ts:6422-7061 | In any run the tool messages are first the answers of the calls in order, each with the result returned for the first equal call, and then interruptions of calls of the batch. |
| `ToolReplies.RunIsOrdered` | packages/core/src/agent.ts:3938-3967 | In any run nothing is dispatched, filled in or answered after an abort or a breaking error, a call returns once, replies follow the filling in, and the handler runs once, after an abort. |
| `ToolReplies.StagesWait` | packages/core/src/agent.ts:6422-6454 | A stage starts, and duplicates are filled in, only when every call launched before has returned. |
| `ToolReplies.NeverStuck` | packages/core/src/agent.ts:6422-7061 | In every reachable state the turn is over or can go on, whatever calls return, and it can be aborted. |
| `ToolBatch.BreakLeavesUnanswered` | packages/core/src/agent.ts:3962-3967 | An error that is not an abort leaves the batch unanswered. |
| `PathMutex.FileWriteQueue.Draw` | packages/core/src/agent.ts:8230-8236 | A new writer links to the tail of its path and becomes the tail. |
| `PathMutex.FileWriteQueue.Begin` | packages/core/src/agent.ts:8237-8239 | A writer starts only once the promise before it has settled. |
| `PathMutex.FileWriteQueue.Release` | packages/core/src/agent.ts:8240-8245 | Returning or throwing opens the gate and removes the map entry if it is still the tail. |
| `PathMutex.EntersIffFirst` | packages/core/src/agent.ts:8230-8237 | A writer may start if and only if every earlier one on its path is done. |
| `PathMutex.WritesAreSerialized` | packages/core/src/agent.ts:8226-8246 | Over every interleaving: at most one writer per path runs, in order of arrival; the next is free as soon as those before it ended, even by throwing; a path has a map entry exactly while its queue is not empty. |
| `PathMutex.ClearIsSafeIff` | packages/core/src/agent.ts:3253 | After clearing the map at the start of a send, every later interleaving keeps the writers of a path exclusive if and only if no write was queued or running. |
| `PathMutex.ClearLetsTwoRun` | packages/core/src/agent.ts:3253 | Otherwise the first in line of a path, running or still waiting, and a new arrival run together; the events are given. |
| `ChatMetadata.Records.UpdateChatMetadata` | packages/core/src/chat_metadata.ts:99-101 | An update awaits the tail of its chat and becomes the tail. |
| `ChatMetadata.Records.ReadChatMetadata` | packages/core/src/chat_metadata.ts:68-78 | Once the update before it has settled, a call reads the file, or gives up when there is none it can read. |
| `ChatMetadata.Records.RunUpdate` | packages/core/src/chat_metadata.ts:104-105 | The callback works on the record as it was read; returning nothing or throwing settles the call. |
| `ChatMetadata.Records.WriteMetadataFile` | packages/core/src/chat_metadata.ts:106-109 | The record computed replaces the file, unless the chat was deleted in between. |
| `ChatMetadata.Records.CleanUp` | packages/core/src/chat_metadata.ts:112-113 | A settled call removes the tail of its chat only if it is still its own. |
| `ChatMetadata.StartsIffFirst` | packages/core/src/chat_metadata.ts:100-102 | A call may read if and only if every earlier one of the chat has settled, however it ended. |
| `ChatMetadata.UpdatesAreSerialized` | packages/core/src/chat_metadata.ts:97-114 | Over every interleaving of arrivals, reads, computations, writes, failures, cleanups and deletion: no two calls of a chat are between read and write, each record written was computed from the one before it, and a missing tail means that all have settled. |
| `ChatMetadata.MetadataIsFold` | packages/core/src/chat_metadata.ts:97-114 | Over every such interleaving a file that exists is the fold, in order of arrival, of the updates of the calls that neither threw nor failed to read: none lost, none overwritten by a stale read. |
| `ChatMetadata.DeletedStaysDeleted` | packages/core/src/chat_metadata.ts:106-109 | Nothing under way recreates a deleted chat. |
| `ChatProgress.NeverStuck` | packages/core/src/chat_metadata.ts:97-114 | In every reachable state the first call that has not settled can take its next step. |
| `ChatProgress.StepsAreFew` | packages/core/src/chat_metadata.ts:97-114 | Each call takes at most three steps, and nothing else moves it. |
| `ChatProgress.LoadIs` | packages/core/src/chat_metadata.ts:67-78 | A call whose turn it is gets the record in the file, or settles when there is none it can read. |
| `ChatProgress.EntryGoesIff` | packages/core/src/chat_metadata.ts:101-113 | The map has no entry for a chat if and only if it has no call yet or the last one has been cleaned up. |
| `ChatProgress.FileIsGoneIff` | packages/core/src/chat_metadata.ts:106-109 | A file is missing if and only if it was at the start or the chat has been deleted. |
| `ChatTitles.Titler.RecordUserTurn` | packages/core/src/chat_auto_title.ts:67-79 | A recorded turn submits its count, with the time of the call, to the chain of its chat. |
| `ChatTitles.Titler.RunCount` | packages/core/src/chat_auto_title.ts:79-94 | The callback of the count works on the record as read: it may mark the chat and reserve a request, and returns the counted record. |
| `ChatTitles.Titler.RunSetTitle` | packages/core/src/chat_auto_title.ts:99-105 | The callback of the title returns a record only if the one read still allows it. |
| `ChatTitles.Titler.OnCounted` | packages/core/src/chat_auto_title.ts:94-95 | Once the count has settled the call asks for a title, or ends; a rejected count takes the mark off the chat. |
| `ChatTitles.Titler.OnAnswer` | packages/core/src/chat_auto_title.ts:96-99 | An answer submits the title update, or ends the request when there is none. |
| `ChatTitles.Titler.Cleanup` | packages/core/src/chat_auto_title.ts:107 | Ending a request takes the mark off its chat. |
| `TitleRuns.RecordsAreLinked` | packages/core/src/chat_auto_title.ts:67-108 | Over every run of turns, answers, edits, failures and deletions, each record written was computed from the one written just before it, and a record that exists is the last. |
| `TitleRuns.DeletedStaysDeleted` | packages/core/src/chat_metadata.ts:108-110 | A late count or title never recreates a deleted chat, not even one computed before the deletion. |
| `TitleRuns.RequestsAreBounded` | packages/core/src/chat_auto_title.ts:87-107 | From the start, while no count is rejected, at most two chats are pending, with one request each. |
| `TitleRuns.FailedCountKeepsMarksIff` | packages/core/src/chat_auto_title.ts:94 | A rejected count keeps the marks right if and only if no other call of its chat is under way. |
| `TitleRuns.SecondRequestIsLate` | packages/core/src/chat_auto_title.ts:81-94 | Over every run from the start, rejected counts included, two requests of one chat are under way together only if the turns that opened them are at least fifteen minutes apart. |
| `TitleRuns.FailedCountAllowsSecondRequest` | packages/core/src/chat_auto_title.ts:84-94 | A concrete run from the start reaches two requests of one chat under way, exactly fifteen minutes apart. |
| `TitleRuns.AttemptsAreSpaced` | packages/core/src/chat_auto_title.ts:81-102 | Over every run from the start, attempts written for a chat are at least three minutes apart, and the title of an older attempt never lands after that of a newer one. |
| `TitleTiming.DueAfterTitleIff` | packages/core/src/chat_auto_title.ts:81-86 | After an attempt whose title landed the next is due if and only if three minutes have passed and it is at least the fourth turn since. |
| `TitleTiming.DueAfterFailureIff` | packages/core/src/chat_auto_title.ts:81-86 | After one without a title it is due if and only if fifteen minutes have passed and, where an automatic title is set, it is at least the fourth turn. |
| `TitleTiming.FirstAttemptIsDue` | packages/core/src/chat_auto_title.ts:81-86 | A chat for which no title was ever asked is due at once. |
| `TitleTiming.CommitLogs` | packages/core/src/chat_auto_title.ts:93-103 | What is logged when a count or a title is written, which the theorems over runs speak of. |
| `TitleTiming.ManagedIs` | packages/core/src/chat_auto_title.ts:23-28 | Which chats the titler may name. |
| `TitleTiming.CountedIs` | packages/core/src/chat_auto_title.ts:79-93 | A count adds one turn, records an attempt with its time and turn, and leaves all else. |
| `TitleSuccess.RepliesAre` | packages/core/src/chat_auto_title.ts:79-103 | What both callbacks make of the record they are given. |
| `TitleSuccess.TitleIsSet` | packages/core/src/chat_auto_title.ts:67-108 | From a quiet start a turn of a managed chat that is due, undisturbed and answered leaves the title given, its source and its time in the file, one turn more, and no mark. |
| `TitleSuccess.CallMoves` | packages/core/src/chat_auto_title.ts:94-108 | Where each step of a call takes it: asking, the second update, or its end. |
| `TitleSuccess.CallGoesOn` | packages/core/src/chat_auto_title.ts:94-108 | A call that has not ended goes on exactly when the update or answer it waits for is there. |
| `KeptTitles.ManualTitleIsKept` | packages/core/src/chat_auto_title.ts:23-28 | In every run from the start, from the moment a title set by hand is written and as long as other edits leave the title alone, nothing the titler has under way then or starts later changes it. |
| `KeptTitles.ManualCommit` | packages/core/src/chat_metadata.ts:99-109 | When a title set by hand is written, no other update of the chat holds a record it has read. |
| `KeptTitles.TitleReplacesWhatItSaw` | packages/core/src/chat_auto_title.ts:89-102 | In every run from the start, with any edits: an automatic title is written only over a record still managed that bears the title its request was made for, the one in the file when the count of the same call was written. |
| `Numerals.DecimalIsCanonical` | packages/core/src/artifact_json_view.ts:53-58 | A printed index is canonical and reads back as itself. |
| `Numerals.CanonicalIsDecimal` | packages/core/src/artifact_json_view.ts:93-98 | A canonical index has one spelling. |
| `JsonPointer.DecodeInvertsEscape` | packages/core/src/artifact_json_view.ts:63-65 | Decoding an escaped token gives the token (RFC 6901, sections 3 and 4). |
| `JsonPointer.EscapeInvertsDecode` | packages/core/src/artifact_json_view.ts:85-92 | Every valid encoded token is the escaped form of what it decodes to. |
| `JsonPointer.ResolvePointer` | packages/core/src/artifact_json_view.ts:67-118 | The loop resolves the tokens one after the other, with the limits and error conditions of the source. |
| `JsonPointer.ParseInvertsPrint` | packages/core/src/artifact_json_view.ts:76-92 | Parsing a printed pointer gives its tokens. |
| `JsonPointer.PrintInvertsParse` | packages/core/src/artifact_json_view.ts:76-92 | Printing the tokens of a well-formed pointer gives the pointer. |
| `JsonPointer.ChildPointerResolves` | packages/core/src/artifact_json_view.ts:204-216 | Every child pointer a view hands out resolves, within the limits, to exactly that child. |
| `JsonLimits.ResolveIs` | packages/core/src/artifact_json_view.ts:67-118 | A pointer within 4096 characters and bytes, of at most 64 well-formed tokens, leads where its tokens lead, and no other is resolved. |
| `JsonLimits.ItemIs` | packages/core/src/artifact_json_view.ts:93-103 | An array is entered by the one decimal spelling of an index that is there and safe. |
| `JsonLimits.NoIndexIs` | packages/core/src/artifact_json_view.ts:93-97 | Any other spelling is refused. |
| `JsonLimits.FieldIs` | packages/core/src/artifact_json_view.ts:106-112 | An object is entered by exactly the keys it has. |
| `JsonLimits.LeafIs` | packages/core/src/artifact_json_view.ts:106-116 | Nothing else can be entered. |
| `JsonPaging.ListPage` | packages/core/src/artifact_json_view.ts:237-332 | A page of keys or array items is a run of items from the offset, within the budget, that one more item would not fit; it makes progress or asks to drill without advancing, and at the end it is empty. |
| `JsonPaging.StringPage` | packages/core/src/artifact_json_view.ts:333-374 | A page of a string is the largest run of code points that fits, or a request to drill. |
| `JsonPaging.FollowVisitsAll` | packages/core/src/artifact_json_view.ts:237-374 | Following `next_offset` shows every item once and in order, up to the end or to the item to drill into. |
| `JsonPaging.SizeGrows` | packages/core/src/artifact_json_view.ts:347-359 | Short of the whole string a longer page is never smaller. |
| `JsonLimits.StringSizeIs` | packages/core/src/artifact_json_view.ts:347-359 | A page of a string costs its metadata, the printed count, the printed next offset or "null" and its code points, within 24 000 bytes. |
| `JsonLimits.BudgetIs` | packages/core/src/artifact_json_view.ts:8 | A page may take 24 000 bytes. |
| `JsonPaging.LastCanShrinkIff` | packages/core/src/artifact_json_view.ts:347-359 | The last code point makes the page smaller if and only if dropping `next_offset` saves more than it costs. |
| `JsonPaging.SearchLargest` | packages/core/src/artifact_json_view.ts:360-367 | The binary search agrees with a linear scan for the largest page that fits. |
| `JsonPaging.CodePointsJoin` | packages/core/src/artifact_json_view.ts:333-341 | Joining the code points gives back the string. |
| `JsonLimits.CodePointsAre` | packages/core/src/artifact_json_view.ts:333-341 | The parts counted are single units and surrogate pairs, with no pair left apart. |
| `SessionReplay.ParseSessionJsonlForReplay` | packages/core/src/chat_session_replay.ts:50-150 | The parser with shared, patched entries returns the transcript of `Parse`. |
| `SessionReplay.ReadRow` | packages/core/src/chat_session_replay.ts:70-141 | One row changes the shared entries and the pending map as `Step` says. |
| `SessionReplay.ReplayLooksAhead` | packages/core/src/chat_session_replay.ts:50-150 | If no call id restarts while open, patching in place shows what a pass that never goes back shows: each tool row at its start, filled by the first later result or closed by the turn end. |
| `SessionReplay.FinishedIffNoRestart` | packages/core/src/chat_session_replay.ts:93-121 | Every tool row shown has an outcome, and the two passes agree, if and only if no call id restarts while open. |
| `SessionReplay.RestartShowsUnfinished` | packages/core/src/chat_session_replay.ts:101-102 | A log in which a call restarts shows a row without an outcome. |
| `SessionReplay.TranscriptIsBounded` | packages/core/src/chat_session_replay.ts:80-121 | At most `maxEntries` rows are returned. |
| `ReplayedRows.EntriesAreJustified` | packages/core/src/chat_session_replay.ts:50-150 | Every entry shown is justified by the log: a successful tool row shows the output of a successful result row of its call, a failed one the error of a failed result or that none was recorded, under the name and arguments of that result, else of a start, else "tool"; every other entry carries the text of a row of its event. |
| `ReplayedRows.OneCallShows` | packages/core/src/chat_session_replay.ts:93-121 | A start and its result make exactly one row: the outcome of the result under the name and arguments found first. |
| `ReplayedRows.UnansweredShows` | packages/core/src/chat_session_replay.ts:63-68 | A start whose turn ends makes one failed row that says no result was recorded. |
| `ReplayedRows.EveryLineIsShown` | packages/core/src/chat_session_replay.ts:70-150 | In a log no longer than the limit every user, assistant and error line is shown, once and in order. |
| `Hydration.ConversationEntriesForHydration` | packages/core/src/chat_session_replay.ts:286-309 | The messages are the merged lines from the `maxTurns`-th last user line on, or none for a cap of zero or less. |
| `Hydration.TurnsAreWindow` | packages/core/src/chat_session_replay.ts:290-309 | Taking the last turns and printing them is taking the end of the transcript and merging consecutive narration. |
| `Hydration.WindowIsEnd` | packages/core/src/chat_session_replay.ts:302-303 | What is taken is the end of the transcript, begins with a user line unless it is all, and holds exactly the last `maxTurns` user lines, or all of them. |
| `Hydration.NarrationAnswers` | packages/core/src/chat_session_replay.ts:303-308 | No two assistant messages meet: each follows its user message or comes first. |
| `Hydration.HydrationIsBounded` | packages/core/src/chat_session_replay.ts:303-309 | At most two messages a turn. |
| `Dispatcher.ToolDispatcher.BeginDispatch` | packages/core/src/dispatcher.ts:361-483 | Entering refuses, answers from the cache, or goes on to preparation, in the order of the source. |
| `Dispatcher.ToolDispatcher.RunOrJoin` | packages/core/src/dispatcher.ts:601-659 | With its locks taken, a dispatch joins the run in flight for its key or starts one. |
| `Dispatcher.ToolDispatcher.FailPreparation` | packages/core/src/dispatcher.ts:698-709 | An exception before the handler ends the dispatch and counts as a failure of the tool. |
| `Dispatcher.ToolDispatcher.ClearInflight` | packages/core/src/dispatcher.ts:652-656 | A settled run leaves the map only if it is still the one registered. |
| `Dispatcher.ToolDispatcher.FinishDispatch` | packages/core/src/dispatcher.ts:661-718 | Caps and caches the outcome, moves the streak, releases the locks and returns the result. |
| `Dispatcher.ToolDispatcher.CountFailure` | packages/core/src/dispatcher.ts:703-708 | The third failure in a row opens the circuit for 30 s. |
| `Dispatcher.ToolDispatcher.CacheSuccess` | packages/core/src/dispatcher.ts:673-677 | A success is stored under its key with its time to live; nothing else is. |
| `Dispatcher.ToolDispatcher.CountOutcome` | packages/core/src/dispatcher.ts:685-696 | An outcome that counts moves the streak of its tool, success or failure, on behalf of its run. |
| `Dispatcher.ToolDispatcher.InvalidateCachesAfterFileWrites` | packages/core/src/dispatcher.ts:298-312 | Drops exactly the cached results of the read tools. |
| `Dispatcher.CircuitFollowsHistory` | packages/core/src/dispatcher.ts:685-708 | Over every interleaving the streak is the number of counted failures since the last success, and the circuit is open until 30 s after the last one if and only if there are at least three. |
| `FailureCounts.ResumeCounts` | packages/core/src/dispatcher.ts:685-696 | By the outcome of the run alone: a success takes the tool off both maps, an exception or an unrecoverable failure raises its streak by one and opens the circuit for 30 s from the third on, a recoverable failure or a guard refusal changes neither map; other tools keep theirs. |
| `FailureCounts.ResumeAnswers` | packages/core/src/dispatcher.ts:661-683 | A dispatch is answered with the output of its run up to the cap, or with its failure. |
| `FailureCounts.StreakIsTally` | packages/core/src/dispatcher.ts:685-708 | Over every run from the start the streak is the tally of the outcomes picked up, and the circuit has been opened if and only if at least three that count came in a row. |
| `FailureCounts.RecoverableNeverOpens` | packages/core/src/dispatcher.ts:685-696 | No number of recoverable failures and guard refusals opens a circuit. |
| `FailureCounts.ThreeFailuresOpen` | packages/core/src/dispatcher.ts:685-696 | Three unrecoverable failures picked up in a row leave the circuit open for 30 s, from any state. |
| `FailureCounts.OpenForThirtySeconds` | packages/core/src/dispatcher.ts:403-414 | After them a dispatch is turned away if and only if fewer than 30 s have passed. |
| `DispatchSteps.EntryIs` | packages/core/src/dispatcher.ts:361-483 | Entering adds one dispatch: refused for malformed text, an open circuit or invalid arguments, in this order, answered from the cache if its tool is cacheable and it has no dependencies, or in preparation. |
| `DispatchSteps.ProceedIs` | packages/core/src/dispatcher.ts:601-659 | Going on, it joins the run in flight for its key if it may share one, or starts one. |
| `DispatchSteps.CachedIsStored` | packages/core/src/dispatcher.ts:673-677 | A success is stored for the time to live of its tool, as the dispatch was answered; a failure is not. |
| `DispatchSteps.UncachedStoresNothing` | packages/core/src/dispatcher.ts:673-677 | A dispatch that may not cache stores nothing. |
| `DispatchSteps.RefusalIs` | packages/core/src/dispatcher.ts:484-600 | A dispatch refused in preparation ends with the error and changes nothing else. |
| `DispatchSteps.InvalidationIs` | packages/core/src/dispatcher.ts:298-312 | A write to the workspace drops exactly what the tools that read it have cached. |
| `CircuitCauses.OpenCircuitHasThreeCausesIff` | packages/core/src/dispatcher.ts:601-708 | For every registry and tool: in every run from the start an open circuit has at least three different failing runs or faults since the last success behind it, if and only if the tool is not one whose dispatches share runs, that is, it is not cacheable or needs approval. |
| `CircuitCauses.SharedFailureOpensCircuit` | packages/core/src/dispatcher.ts:644-708 | For every tool that shares runs, a run from the start in which three dispatches share one run, it fails once, and that failure alone has opened the circuit. |
| `CircuitCauses.OnlyRunsAreCountedAgain` | packages/core/src/dispatcher.ts:685-708 | Over every run from the start an open circuit has as many causes as the streak counts, and only a run is counted more than once. |
| `Dispatcher.OpenCircuitRefuses` | packages/core/src/dispatcher.ts:403-414 | A dispatch that enters while the circuit is open never starts the handler nor joins a run. |
| `Dispatcher.HandlerCanStartWhileOpen` | packages/core/src/dispatcher.ts:403-414 | A concrete run from the start: a dispatch let in earlier starts its handler after others have opened the circuit. |
| `Dispatcher.ProceedsWhileOpenIff` | packages/core/src/dispatcher.ts:403-414 | Over every run from the start under a monotone clock: a dispatch about to start or join a run does so while its circuit is open if and only if the failure that opened it was recorded after the dispatch entered, less than 30 s ago. |
| `Dispatcher.OneRunPerKey` | packages/core/src/dispatcher.ts:644-659 | At most one shared run per key is in flight. |
| `Dispatcher.JoinersAgree` | packages/core/src/dispatcher.ts:644-683 | All dispatches answered from one run get the same result; only the hint of a failure may differ. |
| `Dispatcher.HitsAreFresh` | packages/core/src/dispatcher.ts:469-482 | A cache hit is a success of a run for the same key, stored less than its time to live ago. |
| `Dispatcher.LocksAreThoseOfWaiters` | packages/core/src/dispatcher.ts:601-627 | Over every interleaving the locks held are those of the dispatches still waiting, so every exit has released what it took. |
| `Dispatcher.InvalidationIsLastingIff` | packages/core/src/dispatcher.ts:294-312 | After an invalidation no earlier read is cached again if and only if no read was waiting for a run that had not failed. |
| `ToolArgs.CoerceTwice` | packages/core/src/tool_arg_coerce.ts:5-93 | For every schema and value, unions and nested arrays included, coercing twice is coercing once. |
| `ToolArgs.StaysRejected` | packages/core/src/tool_arg_coerce.ts:47-54 | A branch that does not take a value does not take what another branch makes of it. |
| `ToolArgs.NoneTakes` | packages/core/src/tool_arg_coerce.ts:55-59 | The last resort for arrays in a union is never reached. |
| `ToolArgs.PreparedStays` | packages/core/src/tool_dispatch_args.ts:94-102 | Coercing and pruning arguments that have been coerced and pruned, as happens after edits and the write hook, changes nothing. |
| `ToolArgs.CoerceArgsToSchema` | packages/core/src/tool_arg_coerce.ts:95-104 | Exactly the declared arguments are coerced, each by its own schema. |
| `ToolArgs.PruneArgsToSchema` | packages/core/src/tool_arg_coerce.ts:106-116 | Exactly the declared arguments are kept. |
| `ToolArgs.ValidIsKeptIff` | packages/core/src/tool_arg_coerce.ts:5-93 | Without unions a valid value is left alone by coercion if and only if no array it is made of holds text of an array or object. |
| `ToolArgs.ValidArgsAreKeptIff` | packages/core/src/dispatcher.ts:124-151 | So are valid arguments as a whole. |
| `ToolArgs.EncodedItemIsRefused` | packages/core/src/tool_arg_coerce.ts:6-13 | A valid list of texts, one of which reads like an object, is refused once coerced. |
| `ToolArgs.UnionKeepsIff` | packages/core/src/tool_arg_coerce.ts:47-54 | A union leaves a valid value other than an array alone if and only if the first branch that takes it is of its type. |
| `ToolArgs.UnionTruncates` | packages/core/src/tool_arg_coerce.ts:47-54 | A valid 5.5 becomes 5 in a union whose integer branch comes first. |
| `ToolArgs.TextIs` | packages/core/src/tool_arg_coerce.ts:75-78 | Where text is wanted, numbers are printed, booleans spelled, and all else stays. |
| `ToolArgs.NumberIs` | packages/core/src/tool_arg_coerce.ts:80-90 | Where a number is wanted, numerals are read and for an integer cut towards zero; other text stays. |
| `ToolArgs.ObjectIs` | packages/core/src/tool_arg_coerce.ts:70-73 | Where an object is wanted, text that reads as one becomes it. |
| `ToolArgs.ArrayIs` | packages/core/src/tool_arg_coerce.ts:5-25 | Where an array is wanted, an object or its text becomes an array of one, and text of an array is read. |
| `ToolArgs.ItemsAre` | packages/core/src/tool_arg_coerce.ts:62-68 | Items are decoded and then coerced by the item schema, none lost or added. |
| `ToolArgs.EncodedTwiceIs` | packages/core/src/tool_arg_coerce.ts:26-41 | Text of an array or object reads as that, encoded once or twice. |
| `ToolArgs.OtherTextIs` | packages/core/src/tool_arg_coerce.ts:26-41 | Other text reads as nothing, and a JSON string of other text as that text. |
| `ToolArgs.SoundHostExists` | packages/core/src/tool_arg_coerce.ts:26-41 | What coercion relies on can be met. |
| `ToolArgs.UnionIs` | packages/core/src/tool_arg_coerce.ts:46-60 | The first branch that takes a value decides, and without one the type of the schema itself. |
| `ToolValidation.NoProblemIff` | packages/core/src/dispatcher.ts:40-113 | The validator, in the order it looks, finds no problem if and only if the value is valid. |
| `ToolValidation.ProblemIsReal` | packages/core/src/dispatcher.ts:40-113 | What it reports is really wrong with the value, at the first item where anything is. |
| `ToolValidation.UnionBlames` | packages/core/src/dispatcher.ts:41-52 | A value no branch accepts is told the problem of the last branch one of whose enumerations lists a field of it, or else of the last branch. |
| `ToolValidation.LastMatchIsBlamed` | packages/core/src/dispatcher.ts:49-52 | Which branch that is, read off the enumerations of the branches and the fields of the value. |
| `ToolValidation.ValidateArgs` | packages/core/src/dispatcher.ts:124-151 | The checks of whole arguments find a problem if and only if they are not valid. |
| `Download.RangesTile` | packages/core/local-asr/download_models.py:20-24 | The part ranges tile the file: not empty, end to end, each byte in exactly one. |
| `Download.ModelDirectory.Attempt` | packages/core/local-asr/download_models.py:25-43 | One request writes its blocks as they come and keeps the part only if range, length and connection are right; stopped anywhere it leaves a beginning of the body. |
| `Download.ModelDirectory.FetchPart` | packages/core/local-asr/download_models.py:20-44 | A part of the right size is kept; otherwise the first acceptable of four responses is stored, or nothing. |
| `Download.ModelDirectory.DownloadModel` | packages/core/local-asr/download_models.py:13-61 | A run that may not be stopped does what `Complete` says, except that once a part is lost the parts not yet started may be left out; a stopped one leaves the destination as it was or verified, and explained parts. |
| `Download.PartlyFetchedIsExplained` | packages/core/local-asr/download_models.py:46-48 | Whatever parts a lost one leaves out, what is on disk is what a stopped run may leave, so every theorem over runs covers it. |
| `Download.DestinationIsSafe` | packages/core/local-asr/download_models.py:13-61 | Over any sequence of runs, crashes and servers the destination is untouched or holds content with the manifest hash. |
| `Download.InstalledHasSize` | packages/core/local-asr/download_models.py:49-58 | An installed file has the size of the manifest. |
| `Download.OneRunInstallsIff` | packages/core/local-asr/download_models.py:13-61 | Against a delivering server one run installs the file if and only if it was installed already or no full part holds wrong bytes (if only the content has the hash). |
| `Download.TwoRunsInstall` | packages/core/local-asr/download_models.py:54-57 | Whatever is on disk, two runs against a delivering server install the file. |
| `Download.ResumingIsSound` | packages/core/local-asr/download_models.py:20-44 | Against truthful servers no crash ever leads to a mismatch, and a run that gets every part installs the file. |
| `DownloadRequests.FetchIs` | packages/core/local-asr/download_models.py:20-44 | A part is the body of the first of four responses with a good status, the range asked for, an unbroken connection and the exact length, or is lost. |
| `DownloadRequests.LostPartKeepsOthers` | packages/core/local-asr/download_models.py:20-48 | A run that loses a part keeps every part that was full or could be fetched. |
| `DownloadRequests.VerifiedIff` | packages/core/local-asr/download_models.py:15-17 | Nothing is downloaded if and only if the file there has the size and the hash of the manifest. |
| `AccountDirectory.CleanIsStableIff` | packages/core/src/account_directory.ts:19 | A cleaned name needs no second cleaning if and only if cutting it leaves no space at its end. |
| `AccountDirectory.Directory.SaveAccount` | packages/core/src/account_directory.ts:42-70 | A save identifies, merges, writes one file and removes duplicates as `Save` says. |
| `AccountDirectory.SaveKeepsFiles` | packages/core/src/account_directory.ts:58-60 | No account that logs in by code, link or another service keeps a credential. |
| `AccountDirectory.SaveKeepsUniqueIff` | packages/core/src/account_directory.ts:48-70 | A save keeps names and credentials unique per site unless, read off the input and the listing before it: the cleaned name would be cleaned again, it is the name written, and another listed account of the site has the twice cleaned name and does not go for its credential. Both directions. |
| `AccountDirectory.ClashIsSeen` | packages/core/src/account_directory.ts:19-70 | The account saved clashes with a kept one if and only if input and listing show it beforehand. |
| `AccountDirectory.SavesKeepUnique` | packages/core/src/account_directory.ts:42-70 | Over any sequence of saves with stable names, no two accounts of a site share a name, ignoring case, or a credential. |
| `AccountDirectory.CutNameIsListedTwice` | packages/core/src/account_directory.ts:19 | Two saves of long names leave two accounts listed under one name. |
| `AccountDirectory.WeakSaveLosesIff` | packages/core/src/account_directory.ts:54-66 | Preparing or reporting loses an active, blocked or closed account if and only if its id is taken by an unknown account or it is removed as a duplicate. |
| `AccountDirectory.SoleExactRemovesNone` | packages/core/src/account_directory.ts:50-66 | A save that matches at most one account exactly removes none. |
| `AccountDirectory.WeakSaveKeepsStatus` | packages/core/src/account_directory.ts:55 | Then preparing or reporting keeps every active, blocked or closed account, if the id of an unknown account is free. |
| `AccountDirectory.RenamedAccountIsOverwritten` | packages/core/src/account_directory.ts:54 | A renamed account keeps the id of its first name, and preparing that name again writes over it. |
| `AccountStatus.StatusIsRecorded` | packages/core/src/account_directory.ts:55 | For any files and listing order: active, blocked and closed are recorded whatever was known, reported replaces what is not one of these, prepared is recorded of an unknown account only. |
| `AccountStatus.FieldsAreRecorded` | packages/core/src/account_directory.ts:56-65 | What becomes of each other field of the account saved. |
| `AccountStatus.SavedIsStored` | packages/core/src/account_directory.ts:66-70 | The file of the id returned holds the account returned. |
| `AccountStatus.DateIsRecorded` | packages/core/src/account_directory.ts:65-67 | The account is dated by the save unless the save says nothing new of it. |
| `AccountStatus.LastStrongSaveDecides` | packages/core/src/account_directory.ts:42-70 | Over any sequence of saves the last strong one of an account decides its status, whatever is prepared or reported later without taking its file. |
| `AccountMatching.CleanIs` | packages/core/src/account_directory.ts:19 | A cleaned name is what lies between leading and trailing white space, control characters read as blanks, up to 160 characters. |
| `AccountMatching.FirstMeantIsTaken` | packages/core/src/account_directory.ts:48-53 | The account meant is the first listed one of the site with the name, as user name or address, or the credential. |
| `AccountMatching.SoleAliasIsTaken` | packages/core/src/account_directory.ts:50-53 | Failing that it is the only one whose name is the local part of the address of the other. |
| `AccountMatching.SoleSignupIsTaken` | packages/core/src/account_directory.ts:52-53 | Failing that it is the only signup prepared in the same chat that holds a credential. |
| `AccountMatching.NobodyIsTaken` | packages/core/src/account_directory.ts:53 | Otherwise none is. |
| `AccountMatching.RefusedIff` | packages/core/src/account_directory.ts:43-44 | A save is refused, and then changes nothing, if and only if the name is made of white space and control characters. |
| `AccountMatching.SiteIs` | packages/core/src/account_directory.ts:48-49 | A leading "www." makes no other site. |
| `ExecutionState.AdvanceForPlan` | packages/core/src/execution_state.ts:62-104 | A plan yields one contract per step, the first active, with bounds from the number of steps. |
| `ExecutionState.PlanTracker.OnPlanCall` | packages/core/src/agent.ts:6883-6931 | A plan call replaces the contracts, or verifies one and activates the first still planned. |
| `ExecutionState.CompleteKeepsPointer` | packages/core/src/execution_state.ts:106-131 | A completion keeps the pointer right. |
| `ExecutionState.PointerIsRight` | packages/core/src/agent.ts:6883-6931 | After any calls in any order the pointer is missing if and only if every contract is verified, and otherwise names an active one. |
| `ExecutionState.StaysSoleActiveIff` | packages/core/src/agent.ts:6902-6925 | From one active contract, a completion leaves at most one active if and only if it hits that one or no other is planned. |
| `ExecutionState.InOrderKeepsOneActive` | packages/core/src/agent.ts:6902-6925 | Completing in order, exactly the first contract not yet completed is active. |
| `ContractDates.NewPlanIs` | packages/core/src/execution_state.ts:39-104 | A contract holds the first 800 characters of its step and bounds by the number of steps; only the first has started. |
| `ContractDates.CompleteMoves` | packages/core/src/agent.ts:6902-6925 | A completion verifies its contract now, starts the next one still planned now, and leaves every other as it was. |
| `ContractDates.MarkIs` | packages/core/src/execution_state.ts:106-124 | A marked contract starts with its first activation and ends with every final status. |
| `ContractDates.MarkedPointerIs` | packages/core/src/execution_state.ts:124-130 | The pointer follows an activation, and moves to the first unfinished contract when its own is marked otherwise. |
| `ContractDates.DatesFit` | packages/core/src/execution_state.ts:62-131 | After any calls under a clock that does not run backwards: planned contracts have no dates, active ones have started and not ended, verified ones have ended and not before they started. |
| `BinaryHeader.DecodeKnownBinaryHeader` | packages/core/src/binary_format_header.ts:34-171 | The decoder fills its record as `Decode` says. |
| `BinaryHeader.VersionIsReversedIff` | packages/core/src/binary_format_header.ts:86-113 | The binary version agrees with the text if and only if its four bytes are the components in reverse. |
| `BinaryHeader.DecodeInvertsEncode` | packages/core/src/binary_format_header.ts:34-171 | Decoding inverts an encoder for every 4.x version, count and printable name of 6 to 30 bytes, whatever follows. |
| `HeaderAcceptance.AcceptedIff` | packages/core/src/binary_format_header.ts:34-171 | Bytes that begin with the magic text are accepted if and only if their first line names a version 4.x, the four bytes after it are that version in reverse, and there are no blocks or the first has a printable name of 6 to 30 bytes. |
| `HeaderAcceptance.NoLineAsks` | packages/core/src/binary_format_header.ts:52-57 | Without a line in the first 160 bytes, 160 are asked for. |
| `BinaryHeader.MoreBytesRefine` | packages/core/src/binary_format_header.ts:52-148 | Once the line is complete, a request asks for more than there is, is repeated exactly until that much is there, and is then settled or raised. |
| `BinaryHeader.VerdictStands` | packages/core/src/binary_format_header.ts:34-171 | A verdict other than a request for bytes is unchanged by appending bytes. |
| `BinaryHeader.RequestAsksForMoreIff` | packages/core/src/binary_format_header.ts:52-57 | A request asks for bytes not yet there if and only if the line is complete or fewer than 160 bytes are there. |
| `BinaryHeader.LongLineAsksForEver` | packages/core/src/binary_format_header.ts:52-57 | Without a newline in 160 bytes the same request is repeated for ever. |
| `BinaryHeader.NoHeaderIsFinalIff` | packages/core/src/binary_format_header.ts:38-39 | Bytes that are no header can become one if and only if they begin like the magic text. |

## Left out

- Conversation: the texts of summaries, digests and extracted facts are structured values, and provenance hashes and cache hashes stand for the values hashed.
- Paired: user notes injected between the results of one batch (`packages/core/src/agent.ts:7062-7075`) and length-resume messages break the precondition of the pairing theorems; they are not part of this model.
- Masking: image observations are not modelled.
- ContextManager: token estimates are an uninterpreted measure.
- ContextManager.ContextManager.CompressOldRounds: inside a request, calls follow one another and none fails; overlapping and failing calls are those of `CompressionCache`, over any computation.
- CompressionCache: a key is its fields rather than their hash, and the copy made of a cached request is its value.
- Recorded: records a deletion before every creation, as the comment at `packages/core/src/compensation_ledger.ts:163-166` asks of callers; the agent snapshots existing files only (`packages/core/src/agent.ts:6303-6327`) and commits what `write_file`, `edit_file` and `mkdir_p` wrote (`packages/core/src/agent.ts:6574-6582`), so it never undoes a creation.
- UndoRestoresIff: is therefore about callers that record as that comment asks, and about the agent for overwrites and edits only.
- CompensationLedger: files are a map from resolved path to content; symbolic links, permissions and partial writes are not modelled, and the environment switches are parameters.
- StreamRetry: error classification, sleeping and the refresh of provider settings are inputs to the loop; message contents are not modelled.
- ToolBatch: the order of dispatch inside a batch is any schedule of the distinct calls; the dependency graph that picks it is not part of this model, nor are nudges and distillation of results.
- PathMutex: promises settle in one step; microtask order beyond that is left free.
- ChatMetadata: reading a file and renaming the written one over it are single steps, and direct writes that bypass the chain are not modelled.
- ChatTitles: the bounded list of recent turns, the wording of title requests and the switches that turn titling off are not modelled; an answer may come at any time, the 6 s limit of the client included.
- JsonPaging: JSON text encoding is a cost per code point plus fixed metadata; previews of root keys and the list of drill keys enter only as that cost.
- SessionReplay: rows are parsed lines; blank and malformed lines are skipped before, only ASCII white space counts as blank, and slimming for the wire and rebuilding rows from a conversation in memory are not modelled.
- Hydration: the turn being filled is the last of the list rather than a second reference to it.
- Dispatcher: approval, edited arguments, write hooks and lock acquisition are one preparation with any outcome; a cache key is its tool name and argument text; the verdict of the schema validator is an input; the lock manager and the write budget for vault notes are not modelled.
- ToolArgs: error texts, aliases of single tools, local schema references and properties inherited from the prototype of an object are not modelled; JSON text, numerals and trimming are parameters, and `Sound` says that a printed number or boolean opens no JSON text and that "true" and "false" are no numerals.
- ToolValidation: error texts are kinds of problem; which of several undeclared fields is named is not modelled, and whole arguments are looked at in any order.
- ValidIsKeptIff: is about schemas without unions; for unions `UnionKeepsIff` covers every value but arrays, whose items may be valid for one branch and coerced by another.
- Download: parts are fetched one after the other, which for separate files is every interleaving that matters, and after a lost part any of the later ones may be left out; other processes working in the same directory are not modelled.
- AccountDirectory: listing order is any enumeration; lower case and white space are those of ASCII; service, profile URL, source note and the import of notes are not modelled, and email addresses are taken as already clean.
- ExecutionState: milestones, drift scores, the recovery log and restored checkpoints are not modelled.
- BinaryHeader: explanatory texts in the observation and hexadecimal spellings of raw bytes are not modelled.
- Provider, OAuth, browser, voice and cloud integrations, connector catalogues, redaction, BM25 scoring and intent detection: foreign calls, constant data and text heuristics.
