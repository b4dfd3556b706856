# Athena Flow: verified models

A Dafny 4.11 model of the parts of Athena Flow whose correctness depends on order: loops
over mutable state, queues, timers and messages that cross. Objects the program updates in
place are classes whose methods are proved against functions of their state; what these
functions do over whole runs is proved in lemmas. `dafny verify dfyconfig.toml` checks
everything.

## What is modelled

**Run-stream delivery** (`RunStreamClient`, `RunStreamProtocol`, `RunStreamConvergence`,
`Descent`). The per-run socket client, the server it talks to, the connection with its
two channels, and frames of dead connections that are still to be read. The server
follows the rules in the header comment of the client
(src/app/dashboard/runStreamClient.ts:16-25); it may answer a duplicate by an ack or by
a gap, as the comment leaves that open. Proved: exactly-once in order with each event's
own content, the one way an event is lost, convergence after a reconnect by a measure,
and its mirror image, that after a lost frame gap replies and replays never end.

**The feed** (`FeedTypes`, `FeedStore`, `FeedContents`, `StableSort`, `FeedMerge`,
`Timeline`, `TimelineAgreement`, `TimelineRows`, `TimelineIndex`, `TimelineQueries`,
`RunSummaries`, `Transcript`, `TranscriptTexts`). The event store that coalesces in
place, the merged item list, the timeline that is appended to instead of rebuilt, its
indexes and search cache, and the incremental transcript reader. Each is proved equal to
its from-scratch definition, and what that shows is stated by positions; where append
and rebuild differ the exact condition is proved and the differing inputs are given.

**The gateway** (`Bindings`, `BindingRuns`, `Registry`, `Pipeline`, `PipelineRuns`,
`TurnLedger`, `Ownership`, `Bridge`, `EndToEnd`, `Delivery`). Runtime slots with epochs
and grace timers, turns in flight, the dispatch pipeline with its parked messages, and
the runtime's end of the connection. Timers, closes and deliveries come in any order.
Proved: the slot state machine, the conservation of turns and whose they are, their
order from arrival to subscriber, and exactly when all of them arrive.

**The dashboard daemon** (`CircuitBreaker`, `Attachments`, `Channels`,
`ChannelReconcile`, `Admission`, `RunRecords`, `Intake`). The refresh circuit breaker,
the race of fetches and pushes for the attachment mirror, the dedup window, channel
reconciliation, the admission cap and the assignment buffer.

**Pure translation and arithmetic** (`Regex`, `Glob`, `DenyRules`, `SessionUi`,
`SessionActions`). The compiler from deny patterns to regular expressions, proved through
the text it writes and an independent reader of that text; the cursor and scroll resolver
of the session screen; and what each user action does to it.

## What the proofs found

- Once the send queue has overflowed with the needed frame, the run never recovers:
  `PoisonedForever`, `PoisonedNeverRests`.
- `whenTerminated` also resolves after `close`, when nothing may have been delivered:
  `CloseReportsTerminationEarly`. After a close everything was delivered exactly when no
  queued frame is unaccepted, if nothing overflowed: `ClosedMeansDurable`.
- Without a `close` it means delivered exactly when no event was sent after a terminal one
  (`TerminatedMeansDurable`); such an event is lost (`EventAfterTerminalIsLost`).
- An appended timeline differs from a rebuilt one for a row already paired with a delta, for
  an earlier request of the same tool use, and for a superseded outcome; `AppendEqualsRebuild`
  says exactly when.
- The branches of `matchesDenyPattern` for patterns with a leading or trailing wild card
  are never reached, since every such pattern takes the regular expression: `DenyIsGlob`.
- `**` does not cross line terminators, so a name with one below a denied directory is not
  matched: `DirectoryRule`, `TerminatorIsMissed`.
- The revision of the attachment reconciler is counted over all instances, so a push for
  one instance can make an older push replace a newer fetch of another:
  `FetchYieldsToOlderPush`. Fetches are not ordered among each other either, so a slow one
  can overwrite one begun later: `AnswerGoesBack`, `EarlierFetchOverwrites`.
- A channel whose adapter fails to stop is unregistered without being replaced
  (`FailedStopLosesChannel`); `DesiredRegisteredIff` says exactly which channels survive.
- A run that has completed can still be marked cancelled until its last callback, and in no
  other way: `CompletedStaysIff`.
- Pushing an event object twice can make the kept index of the feed differ from its events;
  `PushKeepsIndexIff` says exactly when.
- A turn written to a connection that is lost, replaced or not listened to is not sent again;
  `StepLosesIff` says for every step when it loses one.
- What an action leaves on the screen is not always what the next resolving shows: scrolling
  the messages away from the cursor's line is undone (`BoundaryScrollUndone`), letting go of
  the tail can move the feed (`LettingGoMovesWindow`), and a todo cursor can be set outside
  its window (`TodoCursorLeavesWindow`). `ReduceSettlesIff` says for every action when it is.

## Model

| member | source | states |
|---|---|---|
| `RunStreamClient.RunStream.TrimQueueUpTo` | src/app/dashboard/runStreamClient.ts:135-139 | the shift loop leaves exactly the queued frames numbered above the acknowledged one |
| `RunStreamClient.RunStream.TrimQueueUpToExclusive` | src/app/dashboard/runStreamClient.ts:141-148 | the same for the frames below the number the server expects |
| `RunStreamClient.TrimRemovesPrefix` | src/app/dashboard/runStreamClient.ts:135-148 | a trim keeps a suffix of the queue: what it removes is numbered below the bound, and the first frame it keeps is not |
| `RunStreamClient.RunStream.FlushQueue` | src/app/dashboard/runStreamClient.ts:203-219 | nothing is written before the resume frame; otherwise the whole queue in order, up to the write that fails |
| `RunStreamClient.RunStream.Send` | src/app/dashboard/runStreamClient.ts:374-401 | the new state and what is written for one event: next number, oldest frame given up at the cap, a failed write kept for replay; a cap of zero makes it throw on the empty queue after the number is used up; the frame queued and the frame written carry the number, time, kind and payload of the event |
| `RunStreamClient.RunStream.Handle` | src/app/dashboard/runStreamClient.ts:233-291 | the new state and the frames written for resume, ack, pong, sequence gap and any other error |
| `RunStreamProtocol.StepKeepsInv` | src/app/dashboard/runStreamClient.ts:119-148 | every step of client, server, channels and network keeps: the log is a prefix of the events sent, the queue is exactly the last frames numbered and at most the cap, every reply is backed by the log, nothing is written before resume |
| `RunStreamProtocol.NothingLostStep` | src/app/dashboard/runStreamClient.ts:374-388 | an event not yet accepted is lost by a step if and only if the step is a send that overflows the cap |
| `RunStreamProtocol.ExactlyOnceInOrder` | src/app/dashboard/runStreamClient.ts:119-401 | for every interleaving of sends, faults, acks, gaps, disconnects and reconnects the server log is a prefix of the events sent; with no overflow, log and unaccepted queue together are all of them |
| `RunStreamProtocol.SentCarries` | src/app/dashboard/runStreamClient.ts:374-380 | over any run the frames made are those of the events handed to `sendEvent`, one by one: each with its number, time and kind, its payload when it has one and null otherwise |
| `RunStreamProtocol.LogCarriesInputs` | src/app/dashboard/runStreamClient.ts:119-401 | over any run the n-th entry of the server log carries the n-th event handed in; without overflow the unaccepted frames of the queue carry all the others |
| `RunStreamProtocol.LogThenQueue` | src/app/dashboard/runStreamClient.ts:135-148 | log followed by the queued frames the server has not accepted equals the events sent |
| `RunStreamProtocol.PoisonedStep` | src/app/dashboard/runStreamClient.ts:381-387 | once the frame the server needs has been dropped and is on no channel, no step changes the log |
| `RunStreamProtocol.PoisonedForever` | src/app/dashboard/runStreamClient.ts:8-15 | nor does any later run |
| `RunStreamProtocol.TerminatedMeansDurable` | src/app/dashboard/runStreamClient.ts:221-231 | in every run, once termination is reported without a close by the caller: every event sent is in the log if and only if none was sent after a terminal one |
| `RunStreamProtocol.ClosedMeansDurable` | src/app/dashboard/runStreamClient.ts:402-425 | closed or not: in a run without overflow the log holds every event sent if and only if no queued frame is unaccepted, and an empty queue is enough |
| `RunStreamProtocol.EventAfterTerminalIsLost` | src/app/dashboard/runStreamClient.ts:221-231 | a run in which termination is reported without a close and the event sent after the terminal one is not in the log |
| `RunStreamProtocol.CloseReportsTerminationEarly` | src/app/dashboard/runStreamClient.ts:402-425 | a run in which `whenTerminated` resolves after a close although the one event sent is only in the queue |
| `RunStreamProtocol.TerminatedForGood` | src/app/dashboard/runStreamClient.ts:221-352 | from any reachable state in which the client is terminated: it stays so, opens no connection and writes nothing more |
| `RunStreamConvergence.DeliveryLowers` | src/app/dashboard/runStreamClient.ts:203-291 | every delivery lowers a measure of unaccepted frames, distance of the next needed frame, replies that can still cause a replay, and frames under way |
| `RunStreamConvergence.DeliveryConverges` | src/app/dashboard/runStreamClient.ts:233-281 | every delivery keeps the last event settled, about to be settled or under way |
| `RunStreamConvergence.Convergence` | src/app/dashboard/runStreamClient.ts:233-291 | every schedule of deliveries comes to rest, with the queue empty and the log equal to the events sent |
| `RunStreamConvergence.ConnectConverges` | src/app/dashboard/runStreamClient.ts:312-323 | a new connection is covered by its resume frame whatever was in flight before |
| `RunStreamConvergence.SendConverges` | src/app/dashboard/runStreamClient.ts:374-401 | a further send keeps convergence if nothing unaccepted is given up and its write succeeds |
| `RunStreamConvergence.ReconnectDeliversAll` | src/app/dashboard/runStreamClient.ts:236-259 | from every reachable state in which no send overflowed, reconnecting and staying quiet delivers every event, and the log carries the events handed in |
| `RunStreamConvergence.ConnectChurns` | src/app/dashboard/runStreamClient.ts:236-259 | a new connection after the needed frame was dropped, with something queued, gets into the endless exchange of gaps and replays |
| `RunStreamConvergence.PoisonedNeverRests` | src/app/dashboard/runStreamClient.ts:268-281 | the mirror image: from every reachable state whose needed frame is gone, reconnecting and staying quiet comes to rest if and only if the server had ended the run; otherwise, whatever the schedule, never, and the log does not grow |
| `RunStreamConvergence.OverflowChurns` | src/app/dashboard/runStreamClient.ts:381-387 | a run that gets there: two events with room for one, then a connection |
| `Descent.ComesToRest` | src/app/dashboard/runStreamClient.ts:203-291 | a schedule that lowers a lexicographic measure at each move comes to rest (used for convergence) |
| `FeedTypes.BuildPostByToolUseId` | src/core/feed/items.ts:32-48 | the loop computes the map from a tool use to its latest delta, post or failure |
| `FeedTypes.PostIsLatest` | src/core/feed/items.ts:31-48 | an entry of the map is an update after which no other of its tool use follows |
| `FeedTypes.PostCovers` | src/core/feed/items.ts:31-48 | every tool use with an update has an entry |
| `FeedMerge.CompareIsRank` | src/core/feed/items.ts:22-28 | the comparison is a total preorder: sequence number, then messages before events |
| `FeedMerge.MergeSorts` | src/core/feed/items.ts:9-29 | the merged list is in that order, has exactly the messages and the events that are not excluded as members, and holds them at every rank in their order |
| `FeedMerge.MergedByNumber` | src/core/feed/items.ts:22-28 | along the merged list the sequence numbers never fall, and of equal number messages come before events |
| `FeedMerge.OnlyTodosKeptOut` | src/core/feed/filter.ts:4-22 | an event is an item if and only if it is none of the requests, outcomes and updates of the todo tools |
| `FeedMerge.MergeExtends` | src/core/feed/items.ts:9-29 | messages and events that sort after all old ones extend the merged list at its end |
| `FeedMerge.ExtendsIffFollows` | src/core/feed/indexedTimeline.ts:278-315 | the old items are a prefix of the new ones, so that the timeline may be appended to, if and only if nothing new sorts before something old |
| `StableSort.SortSorts` | src/core/feed/items.ts:22-28 | the sort is sorted and stable, at every key the same elements in the same order |
| `StableSort.SortedUnique` | src/core/feed/items.ts:22-28 | and that determines the result |
| `FeedStore.Store.PushEvents` | src/core/feed/feedStore.ts:37-111 | the loop with its in-place replacements, copies on write and version equals pushing one event after another |
| `FeedStore.Store.Reset` | src/core/feed/feedStore.ts:136-143 | a reset forgets events, index and reasoning and bumps the version |
| `FeedStore.PushAllSound` | src/core/feed/feedStore.ts:58-102 | with distinct event objects: the kept index equals the one built from the events, no two deltas of a tool use become adjacent, pushed reasoning summaries are unique a key |
| `FeedStore.IndexAgreement` | src/core/feed/feedStore.ts:37-111 | after any batches of pushes on any bootstrap the maintained map equals `buildPostByToolUseId` of the events |
| `FeedStore.PushKeepsDeltasApart` | src/core/feed/feedStore.ts:59-72 | a push keeps deltas of one tool use apart |
| `FeedStore.BatchesAreOnePush` | src/core/feed/feedStore.ts:37-58 | how events are split into batches does not matter |
| `FeedContents.PushStores` | src/core/feed/feedStore.ts:58-102 | a pushed event is stored: in the place of the running delta of its tool use, or of the pushed summary of its key, if there is one, and at the end otherwise; all other events stay where they are |
| `FeedContents.PushAllLasting` | src/core/feed/feedStore.ts:58-102 | over any batch the events that are neither deltas nor summaries are those stored before, then those pushed, in order and once each |
| `FeedContents.PushedInOrder` | src/core/feed/feedStore.ts:37-111 | after any batches, of two such events pushed one after the other both are stored, the first before the second |
| `FeedStore.PushKeepsIndexIff` | src/core/feed/feedStore.ts:59-72 | without distinctness: a push keeps the map equal to the one built from the events if and only if it coalesces nothing, or an object with itself, or no update of the tool use follows the first occurrence of the stored delta |
| `FeedStore.RepeatedObjectBreaksIndex` | src/core/feed/feedStore.ts:65-71 | a run in which that fails: one event object is pushed twice |
| `Timeline.UpdateSubagentTypes` | src/core/feed/indexedTimeline.ts:52-65 | the loop keeps the first type reported of each subagent |
| `Timeline.ComputeDuplicateActors` | src/core/feed/timeline.ts:74-84 | in place on the array: an entry is marked when the entry before has the same actor and operation category |
| `Timeline.BuildTimelineCache` | src/core/feed/indexedTimeline.ts:317-364 | the build loop computes rows, active run, message counter and pending rows item by item |
| `Timeline.AppendTimelineCache` | src/core/feed/indexedTimeline.ts:366-445 | the append loop over the new items |
| `TimelineRows.BuildTracksRun` | src/core/feed/indexedTimeline.ts:348-350 | after a build the active run is that of a start after which no run starts or ends, and there is one if and only if there is such a start |
| `TimelineRows.AppendTracksRun` | src/core/feed/indexedTimeline.ts:401-432 | so after an append, over old and new items together |
| `TimelineRows.BuildTells` | src/core/feed/indexedTimeline.ts:317-364 | a build has a row for each message and each shown event, in the order of the items, and no others; a message row has its number, text and author and the run open before the message; an event row its event, run, pair and error mark |
| `TimelineRows.AppendTells` | src/core/feed/indexedTimeline.ts:366-445 | so has an append |
| `TimelineRows.RowsAreMarked` | src/core/feed/timeline.ts:74-84 | built and appended rows are marked exactly where the row before has the same actor and category |
| `TimelineRows.TypeIsFirst` | src/core/feed/indexedTimeline.ts:52-65 | the type of a subagent is the first one reported, and known if and only if one was |
| `TimelineRows.VerboseOnly` | src/core/feed/indexedTimeline.ts:111-126 | a verbose timeline shows all but deltas and merged outcomes; a plain one also leaves out starts and ends of runs, reasoning, stops without a hook and the listed kinds |
| `TimelineRows.PairIsLastReport` | src/core/feed/indexedTimeline.ts:144-156 | in a build an event is paired if and only if it is a request, no subagent's, for a tool use with a report, and then with the last report of all |
| `TimelineRows.MergedIsLastOutcome` | src/core/feed/indexedTimeline.ts:128-142 | an outcome has no row of its own if and only if it is the last report of its tool use and no subagent's |
| `TimelineAgreement.BuildIsRows` | src/core/feed/indexedTimeline.ts:329-353 | a build has a closed form: one row an item that is shown, each request paired by the index |
| `TimelineAgreement.TracksAll` | src/core/feed/indexedTimeline.ts:384-433 | so has an append: each old request takes up the first outcome, else the last delta, of the new items if it was the last one still open |
| `TimelineAgreement.AppendEqualsRebuild` | src/core/feed/indexedTimeline.ts:317-445 | appended and rebuilt rows are equal if and only if old requests, old outcomes and new outcomes agree with the index; active run, counter and subagent types always agree |
| `TimelineAgreement.AppendIsRebuild` | src/core/feed/indexedTimeline.ts:317-445 | if moreover no latest update is a delta the whole caches are equal, pending rows included |
| `TimelineAgreement.OrdinaryAppendIsRebuild` | src/core/feed/indexedTimeline.ts:366-445 | without deltas, with one request and one outcome a tool use and updates among the items, appending is rebuilding |
| `TimelineAgreement.DeltaBlocksOutcome` | src/core/feed/indexedTimeline.ts:242-249 | a row paired with a delta when built never takes up the outcome in an append |
| `TimelineAgreement.EarlierRequestStaysOpen` | src/core/feed/indexedTimeline.ts:250-250 | of two requests of a tool use only the last takes up the outcome in an append |
| `TimelineAgreement.SupersededOutcomeHasNoRow` | src/core/feed/indexedTimeline.ts:399-417 | a superseded outcome has a row of its own only in a rebuild |
| `TimelineIndex.IndexedTimeline.Update` | src/core/feed/indexedTimeline.ts:466-499 | after an update the cache is the appended or rebuilt one, the run summaries are the fold over all events, and all indexes match the rows |
| `TimelineIndex.IndexedTimeline.UpdateRunSummaries` | src/core/feed/indexedTimeline.ts:630-642 | processing only the events not seen yet gives the fold over all events |
| `TimelineIndex.IndexedTimeline.GetRunSummaries` | src/core/feed/indexedTimeline.ts:590-598 | the cached list is the stable sort of the summaries by start |
| `RunSummaries.SummaryTells` | src/core/feed/indexedTimeline.ts:600-628 | a run has a summary if and only if an event starts or ends it; the summary is running after a start and has the outcome and time of its last end otherwise; it begins at its last start and is titled by it |
| `RunSummaries.SummariesDistinct` | src/core/feed/indexedTimeline.ts:600-628 | no run has two summaries |
| `RunSummaries.SummariesInOrder` | src/core/feed/indexedTimeline.ts:600-628 | the summaries are kept in the order in which their runs first appear |
| `TimelineIndex.IndexedTimeline.RebuildIndexes` | src/core/feed/indexedTimeline.ts:644-665 | the run and error positions are those of the rows |
| `TimelineIndex.IndexedTimeline.GetFilteredView` | src/core/feed/indexedTimeline.ts:505-527 | the view through the indexes is the rows filtered by run and error, in order |
| `TimelineIndex.IndexedTimeline.GetSearchMatches` | src/core/feed/indexedTimeline.ts:529-563 | the cached, resumed and evicting search returns the matches of a full scan |
| `TimelineQueries.FilteredIsAsked` | src/core/feed/indexedTimeline.ts:505-527 | the filtered view is exactly the rows of the chosen run, or all, that are errors if only errors are asked for, in order |
| `TimelineQueries.MatchesAreHits` | src/core/feed/indexedTimeline.ts:529-563 | a search returns exactly the positions of the rows that are hits, rising |
| `TimelineQueries.HitIs` | src/core/feed/indexedTimeline.ts:565-588 | a row is a hit if and only if the query occurs in its lower-cased text: summary and details of an event, the kept text of a message |
| `TimelineIndex.Pick` | src/core/feed/indexedTimeline.ts:520-526 | candidate positions filtered by the error positions give the filtered rows |
| `TimelineIndex.UpdatesRebuild` | src/core/feed/indexedTimeline.ts:466-499 | over any series of updates, where those that extend the previous one agree with the index and leave an outcome as every latest update: the cache is a rebuild of the latest input |
| `TimelineIndex.NextRebuildsIff` | src/core/feed/indexedTimeline.ts:466-499 | after such a series one more extending update gives the rows of a rebuild if and only if it agrees with the index |
| `TimelineIndex.OrdinaryAgreesNext` | src/core/feed/indexedTimeline.ts:366-445 | updates without deltas, with one request and one outcome a tool use, agree all along |
| `Transcript.TranscriptReader.ReadNewAssistantMessages` | src/core/feed/transcript.ts:27-120 | one read: what is returned, or thrown, and the new offset, for a missing, unopenable, unreadable, shrunk or short file; other files keep their offsets |
| `Transcript.LastNewline` | src/core/feed/transcript.ts:56-62 | the backward scan finds the end of the last complete line |
| `Transcript.ExtractMessages` | src/core/feed/transcript.ts:70-114 | the loop yields the message of each line that has one |
| `TranscriptTexts.MessageIff` | src/core/feed/transcript.ts:73-113 | a line becomes a message if and only if it is a record of the assistant with text that is not blank and no broken block; time and model are the record's |
| `TranscriptTexts.PartsAre` | src/core/feed/transcript.ts:96-101 | the parts of a message are the texts of its text blocks that are not blank, all of them and in order |
| `TranscriptTexts.JoinedHolds` | src/core/feed/transcript.ts:103-109 | the text of a message is its parts one after the other, each on a new line |
| `Transcript.SplitRoundTrip` | src/core/feed/transcript.ts:67-68 | the pieces between newlines, glued with newlines, are the text, and hold none |
| `Transcript.LinesCut` | src/core/feed/transcript.ts:52-67 | cutting at a newline cuts between lines |
| `Transcript.RunIsFaithful` | src/core/feed/transcript.ts:27-120 | for every schedule of appends and full, short or failed reads: the offset is 0 or just past a newline, and the messages delivered are those of the lines before it, each once |
| `Transcript.FullReadCatchesUp` | src/core/feed/transcript.ts:48-67 | a read not cut short delivers every complete line of the file, whatever happened before |
| `Bindings.RuntimeBindingStore.Bind` | src/gateway/runtimeBindingStore.ts:130-206 | the slot after a registration: active over the connection, with runtime, default agent and process as registered, epoch, push handle and timer cleared; or the refusal of a taken slot |
| `Bindings.RuntimeBindingStore.Unbind` | src/gateway/runtimeBindingStore.ts:209-217 | the slot and its timer are gone, or the runtime was unknown |
| `Bindings.RuntimeBindingStore.NotifyConnectionClosed` | src/gateway/runtimeBindingStore.ts:225-255 | the slot becomes stale with a timer armed, or goes at once without grace period; an unknown connection changes nothing |
| `Bindings.RuntimeBindingStore.ExpireStaleBinding` | src/gateway/runtimeBindingStore.ts:335-348 | what a grace timer does when it goes off |
| `Bindings.RuntimeBindingStore.PushTo` | src/gateway/runtimeBindingStore.ts:300-305 | a push goes to the handle of the slot of the key, if there is one |
| `BindingRuns.StepKeepsInv` | src/gateway/runtimeBindingStore.ts:130-255 | active slots push over their own open connection and have no timer; stale ones cannot push and have their own timer armed; every armed timer has its slot |
| `BindingRuns.TraceKeepsInv` | src/gateway/runtimeBindingStore.ts:115-350 | so in every run of registrations, closes, unregistrations and timers in any order |
| `BindingRuns.ContinuouslyStale` | src/gateway/runtimeBindingStore.ts:247-254 | a timer still armed has watched one slot, stale and unchanged all along |
| `BindingRuns.FireDeletesWatched` | src/gateway/runtimeBindingStore.ts:335-348 | and that slot is all it deletes |
| `BindingRuns.StaysUnhosted` | src/gateway/runtimeBindingStore.ts:130-255 | a connection without a slot stays without one in every run until something is registered over it |
| `BindingRuns.SupersededCloseIgnored` | src/gateway/runtimeBindingStore.ts:225-227 | in every run: after a slot was taken over from a connection, a close of that connection changes nothing, however much later it comes, unless something was registered over it again |
| `BindingRuns.EpochStep` | src/gateway/runtimeBindingStore.ts:167-182 | a new slot has epoch 1 and is active; a step raises the epoch by one exactly when the connection is switched or regained |
| `BindingRuns.ShownIsLife` | src/gateway/runtimeBindingStore.ts:130-255 | the states of a slot over a run form such a life |
| `BindingRuns.EpochCountsSwitches` | src/gateway/runtimeBindingStore.ts:173-175 | the epoch counts the switches since the slot began |
| `BindingRuns.LastRebindIsLastSwitch` | src/gateway/runtimeBindingStore.ts:167-182 | the time of the last rebinding is that of the last switch |
| `BindingRuns.ShowsLastRegistration` | src/gateway/runtimeBindingStore.ts:130-206 | in every run a slot shows runtime, default agent and process of the last registration of its key |
| `BindingRuns.AttachmentIsKey` | src/gateway/runtimeBindingStore.ts:145-155 | in every run the runtime of a slot is registered for the attachment the slot is kept under |
| `BindingRuns.EqualEpochsUninterrupted` | src/gateway/runtimeBindingStore.ts:167-182 | equal epochs mean the same connection, never lost in between |
| `Registry.SessionRegistry.CompleteDispatch` | src/gateway/sessionRegistry.ts:80-93 | completed, unknown or of another runtime; only a completion consumes the turn |
| `Registry.SessionRegistry.PendingDispatchCountFor` | src/gateway/sessionRegistry.ts:100-106 | the count is how many turns clearing the runtime would remove |
| `Registry.SessionRegistry.ClearDispatchesFor` | src/gateway/sessionRegistry.ts:114-120 | the deletion loop removes exactly the turns of the runtime |
| `Registry.StepConserves` | src/gateway/sessionRegistry.ts:51-120 | a step keeps every turn begun in exactly one of pending, completed and cleared |
| `Registry.RunConserves` | src/gateway/sessionRegistry.ts:51-120 | in every run; each turn is completed at most once and by the runtime it was dispatched to |
| `Registry.PendingUntilEnded` | src/gateway/sessionRegistry.ts:74-120 | over any further run a pending turn is still pending if and only if its own runtime neither completed it nor was cleared, whatever other runtimes did |
| `Pipeline.DispatchPipeline.DispatchInboundToRuntime` | src/gateway/dispatchPipeline.ts:191-235 | a turn begun for the runtime that holds the slot, with the resolved agent and the session of the location, and pushed with the message; or nothing without an agent |
| `Pipeline.DispatchPipeline.HandleInbound` | src/gateway/dispatchPipeline.ts:160-189 | dispatched when a runtime is active; otherwise dropped as one too many, dropped as sent again (same channel, account and idempotency key), or parked |
| `Pipeline.DispatchPipeline.DrainPending` | src/gateway/dispatchPipeline.ts:367-385 | the loop dispatches everything parked for the slot in order |
| `Pipeline.DispatchPipeline.RegisterRuntime` | src/gateway/dispatchPipeline.ts:239-258 | binding, then draining |
| `Pipeline.DispatchPipeline.UnregisterRuntime` | src/gateway/dispatchPipeline.ts:260-264 | the slot goes, and with it the turns of the runtime and no others |
| `Pipeline.DispatchPipeline.NotifyConnectionClosed` | src/gateway/dispatchPipeline.ts:266-272 | a close goes to the binding store and leaves turns and parked messages alone |
| `Pipeline.DispatchPipeline.HandleTurnComplete` | src/gateway/dispatchPipeline.ts:307-359 | the reply goes to the location parked with the turn; a foreign or unknown completion sends nothing |
| `PipelineRuns.StoreFollows` | src/gateway/dispatchPipeline.ts:239-272 | every operation of the pipeline moves the slots by a step of the slot state machine |
| `PipelineRuns.StepInOrder` | src/gateway/dispatchPipeline.ts:160-258 | a step keeps, a key: pushed then parked messages in order of arrival, and none parked behind an active runtime |
| `PipelineRuns.DrainPushesInOrder` | src/gateway/dispatchPipeline.ts:367-385 | a drain pushes the parked messages in order, some perhaps left out |
| `PipelineRuns.StepMatched` | src/gateway/dispatchPipeline.ts:191-223 | every turn in flight was pushed, the n-th id with the n-th push |
| `PipelineRuns.ActivePushes` | src/gateway/dispatchPipeline.ts:225-235 | a push for an active slot goes to its open connection |
| `PipelineRuns.TraceKeepsInv` | src/gateway/dispatchPipeline.ts:160-385 | in every run turns of a key are pushed in strictly rising order of arrival, none twice |
| `PipelineRuns.QueueStaysOk` | src/gateway/state/inboundQueue.ts:47-69 | in every run the parked messages stay within their number and none is parked twice |
| `TurnLedger.StepKeeps` | src/gateway/dispatchPipeline.ts:191-359 | every operation of the pipeline moves the turns by moves of the registry, with ids never minted before |
| `TurnLedger.PushedTurnsConserved` | src/gateway/dispatchPipeline.ts:191-359 | in every run each turn pushed is in flight, completed or cleared, only one of these, and completed at most once, by the runtime recorded in it |
| `Ownership.PushedToHolder` | src/gateway/dispatchPipeline.ts:191-235 | every push of a step is for a turn in flight of the runtime that holds the slot, with the session and agent pushed |
| `Ownership.OwnerAloneCompletes` | src/gateway/dispatchPipeline.ts:191-359 | in every run, as long as the turn of a push is in flight it belongs to the runtime that held the slot when it was pushed; a completion is accepted if and only if it comes from that runtime while registered, and unregistering it clears the turn |
| `PipelineRuns.ReplyGoesToOrigin` | src/gateway/dispatchPipeline.ts:332-354 | a completed turn is answered where its message came from, for its own runtime only, and cannot be completed again |
| `PipelineRuns.ExpiryKeepsTurns` | src/gateway/dispatchPipeline.ts:260-272 | a grace period running out leaves the turns of the runtime in flight; only unregistering clears them |
| `Bridge.SessionBridge.OnTurnDispatch` | src/app/channels/sessionBridge.ts:243-259 | the first subscriber gets everything kept, in order |
| `Bridge.SessionBridge.OnPush` | src/app/channels/sessionBridge.ts:590-605 | a turn is kept when nobody listens, else every handler is called with it |
| `Bridge.CalledOnce` | src/app/channels/sessionBridge.ts:601-603 | each handler is called once a push |
| `EndToEnd.StepKeepsInv` | src/app/channels/sessionBridge.ts:243-259 | every step of gateway, connections and bridge keeps what each handler got and may still get in order of arrival |
| `EndToEnd.TurnsInArrivalOrder` | src/gateway/dispatchPipeline.ts:160-258 | end to end: each subscriber gets only turns of its attachment, in order of arrival and none twice, across registering, closing, rebinding, subscribing and unsubscribing; a live subscriber means an empty buffer, an active runtime means nothing parked |
| `EndToEnd.UnsubscribedGetsNothing` | src/app/channels/sessionBridge.ts:257-259 | in every run a handler gets nothing from unsubscribing until it subscribes again, and the others stay subscribed |
| `Delivery.GateKeeps` | src/gateway/dispatchPipeline.ts:160-258 | an arrival or a registration leaves pushed and parked messages of the key complete if and only if an agent is found, or there is room and no duplicate; otherwise something is missing |
| `Delivery.StepLosesIff` | src/app/channels/sessionBridge.ts:206-259 | exactly when a step of gateway, connections and bridge loses a turn for a handler |
| `Delivery.PushedReachIff` | src/app/channels/sessionBridge.ts:575-605 | in every run: what a handler got, then the buffer, then the wire, are all turns ever pushed for the attachment if and only if no step lost one |
| `Delivery.EveryTurnArrivesIff` | src/gateway/dispatchPipeline.ts:160-385 | in every run: every message that arrived for the attachment is, in order, with the subscriber, buffered, on the wire or parked, if and only if the gateway kept them all and no step lost a turn |
| `CircuitBreaker.RefreshBreaker.NoteRefreshFailure` | src/app/dashboard/runtimeDaemon.ts:316-335 | the shift loop forgets failures outside the window; reaching the limit starts a cooldown |
| `CircuitBreaker.RefreshBreaker.SleepBeforeRefresh` | src/app/dashboard/runtimeDaemon.ts:344-358 | a refresh waits until the cooldown is over and no longer |
| `CircuitBreaker.AlwaysTidy` | src/app/dashboard/runtimeDaemon.ts:316-335 | the failures remembered are sorted, not in the future and fewer than the limit |
| `CircuitBreaker.FailedTidy` | src/app/dashboard/runtimeDaemon.ts:316-335 | and after a failure all within the window |
| `CircuitBreaker.FailuresAreSpread` | src/app/dashboard/runtimeDaemon.ts:337-366 | any limit + 1 failures in a row span at least the shorter of window and cooldown |
| `CircuitBreaker.CooldownIff` | src/app/dashboard/runtimeDaemon.ts:316-366 | in every run a cooldown begins if and only if a failure is the last of at least the limit of failures in a row, since the last success and the last cooldown, that lie within the window; nothing else moves its end |
| `Attachments.AttachmentReconciler.FinishReconcile` | src/app/dashboard/attachmentReconciler.ts:104-111 | a finished fetch is written, and overwritten by the last push of its instance when any push came meanwhile |
| `Attachments.MirrorMissesNoPush` | src/app/dashboard/attachmentReconciler.ts:84-117 | whatever overlaps, for any number of instances: the mirror shows the latest push of its instance or a fetch begun after it |
| `Attachments.OneInstanceIsCurrent` | src/app/dashboard/attachmentReconciler.ts:84-117 | with one instance: the latest push of all or a fetch begun after it |
| `Attachments.FetchYieldsToOlderPush` | src/app/dashboard/attachmentReconciler.ts:103-109 | a fetch gives way to an older push exactly when another instance was pushed meanwhile and its own was pushed before but not since |
| `Attachments.OtherInstanceUndoesFetch` | src/app/dashboard/attachmentReconciler.ts:91-109 | such a run |
| `Attachments.AnswerGoesBack` | src/app/dashboard/attachmentReconciler.ts:101-111 | with a fetch shown, the answer to another fetch of the instance takes the mirror back to something older if and only if that one was begun earlier or gives way to a push |
| `Attachments.InTurnNeverGoesBack` | src/app/dashboard/attachmentReconciler.ts:101-111 | when fetches are answered in the order begun, none still under way is older than the one shown |
| `Attachments.EarlierFetchOverwrites` | src/app/dashboard/attachmentReconciler.ts:101-111 | a run in which the later of two fetches is answered first and the mirror ends at the earlier one |
| `Attachments.CurrentIff` | src/app/dashboard/attachmentReconciler.ts:112-124 | in every run an instance counts as current if and only if it was pushed or fetched and not marked stale since |
| `Channels.ChannelManager.HandleInbound` | src/gateway/channelManager.ts:210-239 | a key in the window is dropped; otherwise it enters the window, the oldest are evicted by the loop, and the sink is called |
| `Channels.ChannelManager.Register` | src/gateway/channelManager.ts:124-162 | registered with its attachment, or refused as stopped, duplicate or failed to start, each exactly then and with the entries as before |
| `Channels.WindowHoldsLast` | src/gateway/channelManager.ts:211-220 | list and set of the window agree, without repetition, and are the last keys let through |
| `Channels.DroppedIffRecent` | src/gateway/channelManager.ts:211-220 | a message is dropped if and only if its key is among the last dedupMax let through |
| `Channels.RunsOfAcceptedDistinct` | src/gateway/channelManager.ts:211-220 | any dedupMax + 1 keys let through in a row are distinct |
| `ChannelReconcile.PlanChannelReconciliation` | src/gateway/channelReconcilePlan.ts:34-68 | the loops list reports, removals and applications in that order |
| `ChannelReconcile.SegmentIsLast` | src/gateway/channelReconcilePlan.ts:70-73 | the name a load error is reported under is what follows the last separator of its path |
| `ChannelReconcile.PathIdIs` | src/gateway/channelReconcilePlan.ts:70-73 | without the ending of a configuration file |
| `ChannelReconcile.ChannelSidecarReconciler.Reconcile` | src/gateway/channelSidecarReconciler.ts:57-87 | executes the plan, one result an action in plan order |
| `ChannelReconcile.RemovalsRemove` | src/gateway/channelReconcilePlan.ts:48-56 | removal takes away the undesired ids and no others, even if their adapters fail to stop |
| `ChannelReconcile.ReconcileOutcome` | src/gateway/channelSidecarReconciler.ts:57-186 | whatever stops, builds and starts fail: registered are exactly the desired ids reported ok, with their attachments, and undesired ones only when stale removal is off |
| `ChannelReconcile.DesiredRegisteredIff` | src/gateway/channelSidecarReconciler.ts:57-186 | over the whole plan a desired channel is registered afterwards if and only if it stops when it was running, its adapter is built and it starts |
| `ChannelReconcile.PlanIsReported` | src/gateway/channelSidecarReconciler.ts:89-129 | each action of the plan has one result with its id and label: a load error is a failure, a removal went well if and only if its adapter stopped |
| `ChannelReconcile.FailedStopLosesChannel` | src/gateway/channelSidecarReconciler.ts:136-149 | a wanted, running channel whose adapter fails to stop is neither kept nor replaced |
| `Admission.PairedExecution.AdmitAssignment` | src/app/dashboard/dashboardPairedExecution.ts:152-223 | duplicate, over the cap of the runner, or accepted with its record and its place in the bucket |
| `Admission.PairedExecution.RecordRun` | src/app/dashboard/dashboardPairedExecution.ts:108-113 | the history keeps the last records |
| `Admission.PairedExecution.RunFinishes` | src/app/dashboard/dashboardPairedExecution.ts:211-220 | counted, and taken out of the active runs and its bucket |
| `Admission.StepKeepsInv` | src/app/dashboard/dashboardPairedExecution.ts:95-223 | the buckets split the active runs by runner, none empty or above the cap |
| `Admission.TraceKeepsInv` | src/app/dashboard/dashboardPairedExecution.ts:95-223 | in every run, and accepted runs are active or completed |
| `Admission.CancelledStays` | src/app/dashboard/dashboardPairedExecution.ts:144-203 | a cancelled or rejected record stays so |
| `Admission.CompletedStaysIff` | src/app/dashboard/dashboardPairedExecution.ts:144-220 | a step leaves a completed record completed if and only if it is not a cancel of that run between its settling and its being taken out |
| `Admission.CompletedCanBecomeCancelled` | src/app/dashboard/dashboardPairedExecution.ts:144-220 | a run with such a cancel |
| `RunRecords.StatusChange` | src/app/dashboard/dashboardPairedExecution.ts:144-220 | how a step changes each record: completed or failed by its promise if it was running, cancelled if it is cancelled under way, and otherwise not at all |
| `RunRecords.OutcomeWasSettled` | src/app/dashboard/dashboardPairedExecution.ts:196-210 | in every run a completed record settled with its promise fulfilled, a failed one with it rejected |
| `RunRecords.SettlingIsRecorded` | src/app/dashboard/dashboardPairedExecution.ts:196-210 | a run that settles is recorded as completed or failed by its promise, unless it was cancelled |
| `RunRecords.HistoryIsLast` | src/app/dashboard/dashboardPairedExecution.ts:108-113 | in every run the history is the last records, up to its limit and in order |
| `Intake.DashboardAssignmentIntake.Handle` | src/app/dashboard/dashboardAssignmentIntake.ts:59-93 | rejected by the checks, or admitted or refused by the execution; one answer either way |
| `Intake.AcceptedIff` | src/app/dashboard/dashboardAssignmentIntake.ts:59-93 | the one answer to a frame accepts it if and only if it passes the checks, its run is not active and its runner has room |
| `Intake.DashboardAssignmentIntake.Drain` | src/app/dashboard/dashboardAssignmentIntake.ts:95-101 | the loop handles everything pending in order |
| `Intake.DashboardAssignmentIntake.MarkReady` | src/app/dashboard/dashboardAssignmentIntake.ts:115-118 | ready, and everything pending handled |
| `Intake.AnsweredInOrder` | src/app/dashboard/dashboardAssignmentIntake.ts:56-122 | frames answered followed by frames pending are the frames received, one answer each in order; nothing is pending while ready; the execution keeps its invariant |
| `Intake.AnswersAreTrue` | src/app/dashboard/dashboardAssignmentIntake.ts:59-93 | in every run each frame answered has a record of its own, in the same order, and was answered as accepted if and only if that record is not rejected |
| `Regex.ReadWritten` | src/app/dashboard/artifactCapture.ts:438-468 | the written text of an expression is read back as that expression, whatever the literals: the escaping is right |
| `Regex.ReadAnchored` | src/app/dashboard/artifactCapture.ts:439-463 | so is the anchored text |
| `Glob.GlobToRegExp` | src/app/dashboard/artifactCapture.ts:438-464 | the loop with its skipped indexes writes the expression of the pattern |
| `Glob.Piece` | src/app/dashboard/artifactCapture.ts:440-461 | one turn of the loop |
| `Glob.CompiledMatches` | src/app/dashboard/artifactCapture.ts:438-464 | for every pattern and path the expression accepts exactly what a direct matcher of the pattern accepts |
| `DenyRules.DenyIsGlob` | src/app/dashboard/artifactCapture.ts:418-436 | every deny pattern means what the matcher says: the branches for leading and trailing wild cards never decide |
| `DenyRules.LiteralMatches` | src/app/dashboard/artifactCapture.ts:435-435 | a pattern without wild cards matches only itself |
| `DenyRules.DirectoryRule` | src/app/dashboard/artifactCapture.ts:423-426 | `p/**` matches what is below p with no line terminator in its name there, exactly |
| `DenyRules.PrefixRule` | src/app/dashboard/artifactCapture.ts:423-426 | p and `p/**` together are the prefix rule on names without line terminators |
| `DenyRules.SuffixRule` | src/app/dashboard/artifactCapture.ts:427-430 | `**/q` is the suffix rule on such names |
| `DenyRules.ExtensionRule` | src/app/dashboard/artifactCapture.ts:431-434 | `p*` matches names that begin with p and go on without a slash |
| `DenyRules.QuestionRule` | src/app/dashboard/artifactCapture.ts:453-455 | `p?` matches p and one more character that is no slash |
| `DenyRules.NameRule` | src/app/dashboard/artifactCapture.ts:444-448 | a pattern for names after `**/` looks at the name, and needs a folder without line terminators |
| `DenyRules.DefaultDenied` | src/app/dashboard/artifactCapture.ts:397-406 | exactly the names the default list keeps out |
| `DenyRules.AllowedMeansSafe` | src/app/dashboard/artifactCapture.ts:408-416 | exactly what passes the whole check with the default list, for a slash and for a backslash as separator |
| `DenyRules.TerminatorIsMissed` | src/app/dashboard/artifactCapture.ts:444-452 | a name with a line terminator below a denied directory is not matched |
| `SessionUi.ResolveIdempotent` | src/app/shell/sessionUiState.ts:308-370 | resolving twice is resolving once |
| `SessionUi.CursorInView` | src/app/shell/sessionUiState.ts:114-142 | with rows and an entry at or above the floor, the resolved cursor is an entry inside its window |
| `SessionUi.FeedSettledAfter` | src/app/shell/sessionUiState.ts:378-666 | after any action the feed cursor and window need no correction, if and only if it does not let go of a followed tail with a floor above the last window start |
| `SessionUi.TodoSettledAfter` | src/app/shell/sessionUiState.ts:378-666 | exactly when an action leaves todo cursor and scroll as the next resolving has them |
| `SessionUi.MessagesSettledAfter` | src/app/shell/sessionUiState.ts:612-662 | a scroll of the message panel, or a cursor move against an end of the list, outlasts the next resolving if and only if the scrolled window shows the line of the cursor or is at the very end; a jump to the top if the first line is shown there |
| `SessionUi.ReduceSettlesIff` | src/app/shell/sessionUiState.ts:378-666 | for every action the exact condition under which resolving its result changes nothing at all |
| `SessionActions.GoesToTail` | src/app/shell/sessionUiState.ts:481-532 | after a jump to the tail, and following it, the cursor is on the last entry, the window ends with it, and the tail is followed |
| `SessionActions.GoesToTop` | src/app/shell/sessionUiState.ts:509-517 | after a jump to the top cursor and window are at the floor and the tail is let go |
| `SessionActions.CursorMoves` | src/app/shell/sessionUiState.ts:491-502 | a move of the feed cursor ends at the old index plus delta, limited to the entries, in a window that moves only if it has to |
| `SessionActions.CursorIsSet` | src/app/shell/sessionUiState.ts:445-604 | setting, revealing and a submitted search end so at the index asked for |
| `SessionActions.TodoCursorMoves` | src/app/shell/sessionUiState.ts:558-587 | the todo cursor ends at the index asked for, or the old one plus delta, limited to the todos |
| `SessionActions.MessagesScroll` | src/app/shell/sessionUiState.ts:611-623 | a scroll moves the window of the messages by delta, limited, and leaves their cursor |
| `SessionActions.MessageCursorMoves` | src/app/shell/sessionUiState.ts:624-646 | the message cursor ends at the old index plus delta, limited, with its line shown; against an end the window moves by delta |
| `SessionActions.MessagesJump` | src/app/shell/sessionUiState.ts:647-662 | to the last message and window, following; or to the first |
| `SessionActions.FocusCycles` | src/app/shell/sessionUiState.ts:385-405 | cycling gives the focus to the next part of the screen that can have it |
| `SessionActions.FocusIsNamed` | src/app/shell/sessionUiState.ts:406-464 | focus and input mode are the ones an action names |
| `SessionActions.VisibilityIsNamed` | src/app/shell/sessionUiState.ts:533-554 | the todo list is shown or hidden as named, and never keeps the focus hidden |
| `SessionActions.SettingIsNamed` | src/app/shell/sessionUiState.ts:425-610 | overlay, query, match position, done todos and message tab are the ones named |
| `SessionActions.HintsGoRound` | src/app/shell/sessionUiState.ts:425-426 | three cycles of the hints lead through all three settings and back |
| `SessionActions.OthersLeftAlone` | src/app/shell/sessionUiState.ts:378-666 | an action that does not move the feed, the messages or the todos leaves them as resolved |
| `SessionActions.SettingsLeftAlone` | src/app/shell/sessionUiState.ts:378-666 | focus, input mode, search, hints, overlay and tabs change only by the actions that name them |
| `SessionUi.LettingGoMovesWindow` | src/app/shell/sessionUiState.ts:308-370 | such a correction of the feed: letting go of the tail, then the window moves |
| `SessionUi.BoundaryScrollUndone` | src/app/shell/sessionUiState.ts:629-640 | such a correction of the messages: a move against the end scrolls by a line and the next resolving scrolls back |
| `SessionUi.TodoCursorLeavesWindow` | src/app/shell/sessionUiState.ts:308-370 | such a correction of the todos: a cursor set below the window |
| `SessionUi.ResolvedInBounds` | src/app/shell/sessionUiState.ts:308-370 | resolving puts every field of any state in bounds of the contents |
| `SessionActions.FeedResolves` | src/app/shell/sessionUiState.ts:114-142 | resolving keeps the feed cursor on its entry, limited to the entries, or puts it on the last one when its entry is gone or the tail is followed; the window moves as little as it can |
| `SessionActions.TodosResolve` | src/app/shell/sessionUiState.ts:308-370 | the todo cursor follows the anchor while it follows, and else stays, limited; its window moves as little as it can |
| `SessionActions.MessagesResolve` | src/app/shell/sessionUiState.ts:204-241 | following the tail the last message in the last window; else the cursor stays, limited, and the window moves as little as its line needs |
| `SessionActions.NothingResolves` | src/app/shell/sessionUiState.ts:308-370 | without todos, messages or entries there is no cursor and the window is at the start |
| `SessionActions.OthersResolve` | src/app/shell/sessionUiState.ts:308-370 | the match position is limited, the focus kept where it can be and else on the feed, and all settings kept |
| `SessionUi.StepLandsOnMatch` | src/app/shell/sessionUiState.ts:465-480 | stepping puts the cursor on the match stepped to, in view |
| `SessionUi.StepForwardAndBack` | src/app/shell/sessionUiState.ts:465-480 | a step forward and back restores the match position if and only if that position and the next are within both counts; always when they agree |

## Left out

- BindingRuns.TraceKeepsInv: assumes that a connection hosts one slot and closes once, that a runtime registers under one key, and that a registration brings its push handle, because the store does not enforce these and its callers keep to them; a second close of a stale slot would arm a second timer.
- EndToEnd.TurnsInArrivalOrder: states order and no repetition only, because turns lost with a connection are not sent again; which steps lose one is stated by Delivery.StepLosesIff.
- RunStreamConvergence.Convergence: assumes no further disconnect, send or failed write, because without these the protocol need not come to rest.
- CircuitBreaker.FailuresAreSpread: covers the refreshes of `connectOnce`, one at a time; the single proactive refresh before expiry does not wait for a cooldown.
- Channels.ChannelManager.ListChannels: gives the registered ids in some order, not the order of registration, so the order of stale removals is left open.
- ChannelReconcile.ReconcileOutcome: assumes that a built adapter has its sidecar's instance id and that nothing else registers or unregisters while a plan is carried out.
- Timeline.AppendItem: works on values, so that the append marks the very entry objects of the previous cache is not modelled, nor are the caches of details and search texts kept by entry object.
- Pipeline.InboundQueue.Drain: a plain list instead of the SQL table; durability and ids of rows are not modelled.
- Registry.SessionRegistry.BeginDispatch: takes the id from the id factory as a parameter; that ids never repeat is assumed of the runs.
- Bridge.SessionBridge.OnTurnDispatch: a handler that subscribes or unsubscribes while it is being called is not modelled.
- Transcript.TranscriptReader.ReadNewAssistantMessages: decoding a line (UTF-8, JSON) is a parameter; the file system's answers are parameters too.
- Reading of event data in the timeline: labels, summaries, expansions and run titles are parameters; only operation, identity and pairing matter.
- Path normalization and the platform's path test in `isAllowedRelativePath` are parameters; a UTF-16 code unit is a character.
- Telemetry, logging, observers, heartbeats, the watchdog, backoff delays and the promise of the first connection are not modelled; a reconnect is a step that may come at any time.
- `stop` of the binding store, the channel manager and the paired execution, and proactive token refresh.
- The outbound side of the pipeline (outbox, retries) and relays of permissions and questions: a reply is what is handed to the sender.
- Git, uploads and file reading of artifact capture; React components; storage engines; workflow files and hooks.
- The mapper of hook events, rule matching, the lock file and the command line, which would add only easy members or have no clean safety property.
