# Concord: verified models of the collaboration and execution core

Concord lets several people edit the files of a project together, run them in
sandboxes and debug them. These Dafny modules model the parts of it in which
several processes, queues and clocks meet, and prove what those parts promise.
`dafny verify dfyconfig.toml` checks all of it.

| part of the system | modules |
|---|---|
| live editing of one file: tabs, sockets, the room, restores, restarts | `CollabClient`, `CollabRoom`, `CollabProtocol`, `CollabRuns`, `RestoreEdit` |
| running a program: row, audit log, queue, workers, sweeper, console | `ExecutionState`, `ExecutionProtocol`, `ExecutionRuns`, `ExecutionQueue`, `RunConsole` |
| version history and the recent-changes panel | `VersionHistory`, `VersionTable`, `Changes`, `Attribution` |
| cursors | `Varint`, `AwarenessCodec`, `Awareness`, `AwarenessHandoff` |
| the debugger's transport | `DebugFraming`, `DebugMux`, `DebugClient` |
| the folder tree | `Folders` |
| shared | `Wrappers`, `ByteStrings`, `Sorting` |

## How to read it

An object whose methods change its fields is a class. Each method's contract
equates the new state with a function of the old one, and the lemmas are about
that function. A protocol is a state, an `Action` datatype, a predicate
`Enabled` and a function `Next` (or `Step`); `Runs` is the set of all
interleavings, and the main lemmas speak about every state a run reaches.

**Live editing.** A document is the set of operations it holds and merging is
union; a diff is any set between "what the peer lacks" and "what I have". A
`System` has one room, any number of tabs, one FIFO queue each way per socket,
and an epoch that counts the room's reloads from a checkpoint. Registering a
connection and queueing the full document for it are one step, as nothing is
awaited between them. A viewer is a link whose updates are refused with an
error message, which is never counted as an acknowledgement.

**Running a program.** `ExecutionProtocol` has one run's row with its audit
log, its field in the Redis hash, the cancel channel, any number of workers
(one program counter each, plus the sandbox thread), the submitting request,
any number of cancel requests, the sweeper, and the containers of the run.
Commits, publishes, hash deletes and container removals are atomic; everything
between them interleaves, a worker may die at any step, and every status a
process acts on may be stale. The model also lets the queue field appear
again at any time (`Redelivers`), which is more than Redis does.

**Versions.** Times are microseconds, as Python's `datetime` has them. A slot
is ten minutes or a day of the UNIX time in whole seconds.

**Attribution.** `difflib`'s opcodes are any tiling of the two line lists
whose "equal" blocks hold equal lines (`Changes.SomethingDiffs` gives one). The quotients in
`_largest_remainder` are exact, as are those in `compute_priority`.

**Cursors.** JSON is a pair of partial functions of which one inverts the
other (`AwarenessCodec.SomethingBehaves` gives a small pair). An
observer is a Yjs client: it takes strictly newer clocks, and a removal at the
clock it has.

**Debugger transport.** UTF-8 decoding and `int()` are two functions of which
only their values on ASCII text and on decimal numerals are assumed
(`DebugFraming.SomethingBehaves` gives a pair that fits).

## What turned out not to hold

- "Synced" does not always mean saved. While a socket is closing, a local edit
  is not sent and the status stays "synced", and a flush then resolves with
  true (`SyncedCanLie`). On an open socket the server can have restarted from a
  checkpoint without an acknowledged edit before the browser notices
  (`SyncedCanLieOnAnOpenSocket`). `StatusMisleadsExactly` says by which steps,
  and by no others, a truthful status becomes wrong: an edit the server lacks
  while the socket is not open, a reload that loses part of the tab's
  document, and a delivery on a socket registered before such a reload.
  `StatusIsTruthful` is the other side: without such a step the status is
  truthful at the end of every run. `SyncedIsTruthful` therefore asks for an
  open socket that was registered in the document the room holds now.
- A committed cancel can go unheard by a worker past its second reading, in two
  ways. The worker goes on when subscribing fails
  (`UnsubscribedWorkerMissesCancel`), and `cancel_execution` can stop between
  its commit and its signal, at a Redis error or with its process
  (`UnsentCancelIsMissed`); nobody else signals for it (`NobodyElseSignals`).
  `CancelIsNotMissed` is the exact condition: the worker is subscribed and the
  cancel was signalled. A worker before its second reading never misses one
  (`RereadSeesCancel`).
- `prune_versions` skips files with fewer than 30 versions, so the schedule of
  its runs can matter (`ScheduleCanStopThinning`). `ScheduleDecides` gives the
  exact condition for every schedule: the last run makes up for the earlier
  ones exactly when there were never thirty versions, or thirty are left for it
  to look at, or nothing is left to thin. `AnyScheduleOfPrunes` is about
  `versions_to_prune` itself, for which the schedule never matters.
- `split_stats` promises exact totals. `SplitIsExactly` says when that holds:
  one author, or somebody typed something, or enough authors to take one line
  each. `SharesCanFallShort` has two weights that add up to less. A window's
  weights are always positive, so `SplitIsExact` holds of every window.
- The folder check and the commit that follows it are two steps, so two moves
  that each pass can together make a loop (`OverlappingMovesCanLoop`).
  `OverlappingMovesExactly` says when two do: each folder is above the other's
  new parent. `OverlappingRequestsExactly` says it for any interleaving of
  checks and commits: the table is a forest throughout exactly when no commit
  moves a folder under one that by then is inside it. `RunKeeps` is about
  requests handled one after the other.
- Four cursors per connection are the limit for new ones only: a takeover is
  not counted (`TakeoverExceedsFour`). An announcement takes a connection
  beyond four exactly when it has four and the announcement takes over
  another (`ExceedsFourExactly`); after a whole update the cursors are those
  counted, at most four or what there was, and one for each takeover
  (`CursorsAreCountedOrTakenOver`).
- A debugger request started after the read loop has ended is registered but
  never answered, and settled only by its own timeout or a close
  (`LateRequestIsNeverAnswered`, reached in `RequestAfterHangup`); once the loop has ended a request is settled exactly
  when it was started before (`SettledExactlyWhenInTime`).
- `encode_update` raises for a state with a lone surrogate in its text, which
  `decode_update` accepts: `Encoded` is None for it, and the round trip is
  about the updates that can be encoded.
- ws.ts describes a "connecting" status for reconnecting too; the code leaves
  the status at "offline" until the new socket has synced, and so does the
  model.

## Model

| member | source | states |
|---|---|---|
| `CollabClient.CollabConnection.constructor` | frontend/src/lib/ws.ts:163-178 | a new connection: an empty document, "connecting", nothing sent |
| `CollabClient.CollabConnection.ChangeStatus` | frontend/src/lib/ws.ts:180-188 | the status changes and, on becoming "synced", every waiting flush is confirmed |
| `CollabClient.CollabConnection.SettleStatus` | frontend/src/lib/ws.ts:189 | "syncing" while an update is unacknowledged, else "synced" |
| `CollabClient.CollabConnection.Send` | frontend/src/lib/ws.ts:191-195 | one more update sent and unacknowledged, and the status that follows |
| `CollabClient.CollabConnection.Message` | frontend/src/lib/ws.ts:232-257 | merge a document frame; on the first one send back what the server lacks; count an acknowledgement |
| `CollabClient.CollabConnection.LocalUpdate` | frontend/src/lib/ws.ts:306-309 | an edit stays in the document and is sent only on a synced, open socket |
| `CollabClient.CollabConnection.Reconnect` | frontend/src/lib/ws.ts:215-218 | a new socket: not synced, nothing unacknowledged, the document kept |
| `CollabClient.CollabConnection.SocketClosed` | frontend/src/lib/ws.ts:287-301 | "denied" on code 1008, otherwise "offline" and a reconnect to come; nothing if the tab was closed |
| `CollabClient.CollabConnection.CloseTab` | frontend/src/lib/ws.ts:346-354 | the tab is closed and never reconnects |
| `CollabClient.CollabConnection.RequestFlush` | frontend/src/lib/ws.ts:334-341 | confirmed at once when "synced", otherwise waiting |
| `CollabRoom.LiveRoom.constructor` | backend/app/realtime/rooms.py:21-36 | a room holds the stored document and no connection |
| `CollabRoom.LiveRoom.Send` | backend/app/realtime/manager.py:65-68 | the frame goes to the end of that connection's queue |
| `CollabRoom.LiveRoom.Broadcast` | backend/app/realtime/manager.py:213-223 | every registered connection but the excluded one gets the frame, at the end of its queue |
| `CollabRoom.LiveRoom.Attach` | backend/app/realtime/gateway.py:182-190 | registering and queueing the whole document happen together |
| `CollabRoom.LiveRoom.ReceiveUpdate` | backend/app/realtime/gateway.py:233-259 | an editor's update is applied, sent to all others, then acknowledged; a viewer's is refused |
| `CollabRoom.LiveRoom.ReplaceWith` | backend/app/realtime/rooms.py:68-76 | a restore reaches the document and everybody, the restorer included |
| `CollabRoom.LiveRoom.DetachConnection` | backend/app/realtime/manager.py:196-206 | the connection is forgotten, the document kept |
| `CollabProtocol.TurnKeeps` | frontend/src/lib/ws.ts:306-309 | a local edit keeps the invariant of its tab |
| `CollabProtocol.DeliveryKeeps` | frontend/src/lib/ws.ts:232-257 | a delivered frame keeps it |
| `CollabProtocol.FirstFrameKeeps` | frontend/src/lib/ws.ts:236-244 | after the first frame the one update in flight is all that the server lacks |
| `CollabProtocol.ListenersKeep` | frontend/src/lib/ws.ts:287-301 | opening, closing, flushing and closing the tab keep it |
| `CollabProtocol.BroadcastKeeps` | backend/app/realtime/manager.py:213-223 | a broadcast keeps it for every tab, registered or not |
| `CollabProtocol.ServeKeeps` | backend/app/realtime/gateway.py:233-259 | serving the tab's own update keeps it, whether taken or refused |
| `CollabProtocol.JoinKeeps` | backend/app/realtime/gateway.py:182-190 | registering keeps it |
| `CollabProtocol.StepKeeps` | backend/app/realtime/gateway.py:180-259 | every step of every process keeps the invariant of every tab |
| `CollabProtocol.RunKeeps` | backend/app/realtime/gateway.py:180-259 | so does every run |
| `CollabProtocol.RunServesEditors` | backend/app/realtime/gateway.py:234-238 | in no run is an editor's update refused |
| `CollabProtocol.ReplicasBounded` | backend/app/realtime/manager.py:182-223 | server operations are in the client or queued to it; a synced client's are on the server, in flight or refused; at every moment of every run |
| `CollabProtocol.Convergence` | backend/app/realtime/gateway.py:176-190 | with empty queues a registered tab equals the server up to refused updates, and shows "synced" exactly when none was refused; an editor's tab equals the server and shows "synced" |
| `CollabProtocol.SyncedIsTruthful` | frontend/src/lib/ws.ts:189-195 | on an open socket registered in the document the room holds now, "synced" implies that the server has every local operation and nothing is in flight |
| `CollabProtocol.UnackedIsExact` | frontend/src/lib/ws.ts:254-256 | `unacked` is the number of updates in flight, refused, or acknowledged but not yet read |
| `CollabProtocol.NothingIsLost` | frontend/src/lib/ws.ts:145-152 | an operation once in an open tab is on the server when the tab, after any drops and restarts, next shows "synced" on such a socket, or is an editor's with nothing in flight |
| `CollabProtocol.StatusMisleadsExactly` | frontend/src/lib/ws.ts:189-195 | a truthful status becomes wrong by exactly three kinds of step: an unsent edit, a reload that loses something, a delivery on a socket older than the reload |
| `CollabProtocol.StatusIsTruthful` | frontend/src/lib/ws.ts:306-309 | a run without such a step ends with a truthful status, whatever the socket's state |
| `CollabProtocol.FlushIsTruthful` | frontend/src/lib/ws.ts:334-341 | a flush resolves with true only when the status is "synced"; the server then has everything exactly when the status was truthful and the step did not mislead, and always on an open socket registered in the present document |
| `CollabProtocol.EditKeepsStatusTruthful` | frontend/src/lib/ws.ts:306-309 | an edit keeps "synced implies saved" exactly when the socket is open |
| `CollabRuns.SyncedCanLie` | frontend/src/lib/ws.ts:306-309 | a run that shows "synced" and confirms a flush with an edit the server lacks, the socket being closed |
| `CollabRuns.SyncedCanLieOnAnOpenSocket` | frontend/src/lib/ws.ts:232-257 | a run that shows "synced" on an open socket after the server restarted without an acknowledged edit |
| `CollabProtocol.DeliveryIsProgress` | frontend/src/lib/ws.ts:232-257 | every delivery lowers the work left |
| `CollabProtocol.ServingIsProgress` | backend/app/realtime/gateway.py:239-259 | every served update lowers the work left, though it is broadcast |
| `CollabProtocol.SettlingIsBounded` | backend/app/realtime/gateway.py:200-259 | without new edits, drops, joins or restarts only a bounded number of deliveries and served updates follows, whatever checkpoints and flushes come in between |
| `CollabProtocol.NothingLeftMeansQuiet` | frontend/src/lib/ws.ts:254-256 | when none is left for a tab its queues are empty |
| `CollabProtocol.EditorsAgree` | backend/app/realtime/gateway.py:176-190 | wherever a run has led, when nothing is left to serve or deliver any two registered editors hold the server's document and show "synced" |
| `RestoreEdit.SameOutside` | backend/app/realtime/rooms.py:42-43 | outside the replaced part every character stays, at its place from the start or from the end |
| `RestoreEdit.KeepsNoMore` | backend/app/realtime/rooms.py:48-55 | where the scans stop, no replacement that gives the new text keeps more |
| `RestoreEdit.TextEdit` | backend/app/realtime/rooms.py:39-65 | no edit exactly for equal texts; otherwise an edit that yields the new text, and no single contiguous replacement keeps more characters |
| `ExecutionState.ChangeKeepsLegal` | backend/app/services/execution_state.py:30-61 | any attempt from any stale status, won or lost, leaves a legal history: a chain in the table that ends in the row's status, with the time stamps that belong to it |
| `ExecutionState.ClaimKeepsLegal` | worker/app/worker.py:129-144 | so does the claim |
| `ExecutionState.RanksRise` | backend/app/models/execution.py:40-59 | along a history the rank strictly rises, up to four |
| `ExecutionState.TerminalIsLast` | backend/app/models/execution.py:55-58 | a terminal event is the last, hence only one, and a history has at most five events |
| `ExecutionState.ClaimIsFirst` | backend/app/models/execution.py:41 | leaving "queued" can only be the first change |
| `ExecutionState.EndedWhileQueuedNeverStarts` | backend/app/api/executions.py:141-157 | a run ended while queued was never started and keeps that status |
| `ExecutionState.Execution.constructor` | backend/app/api/executions.py:81-90 | a new row is queued, with its event |
| `ExecutionState.Execution.ChangeStatus` | backend/app/services/execution_state.py:30-61 | compare-and-set: the row and the log change together, or neither |
| `ExecutionState.Execution.ClaimFor` | worker/app/worker.py:129-144 | claimed exactly when still queued |
| `ExecutionState.Execution.Cancel` | backend/app/api/executions.py:267-277 | the retry loop ends after at most four retries in a finished status, whatever others commit between; when it won, the last event is its own |
| `ExecutionProtocol.KillSandboxOk` | worker/app/worker.py:107-113 | the kill loop only removes containers, and its last kill comes after the thread has ended |
| `ExecutionProtocol.ThreadStepOk` | worker/app/worker.py:95-117 | the sandbox thread may create or end at any moment and keep the invariant |
| `ExecutionProtocol.WorkerStepKeeps` | worker/app/worker.py:120-247 | every step of a worker keeps the invariant |
| `ExecutionProtocol.CancelWriteKeeps` | backend/app/api/executions.py:267-277 | a cancel request's write keeps it, from a stale status too |
| `ExecutionProtocol.SweepWriteKeeps` | backend/app/realtime/orphan_sweep.py:57-72 | the sweeper's write keeps it, from a stale status too |
| `ExecutionProtocol.StepKeeps` | worker/app/worker.py:120-247 | every step of API, workers, threads and sweeper keeps the invariant |
| `ExecutionProtocol.RunKeeps` | worker/app/worker.py:120-247 | so does every run |
| `ExecutionProtocol.HistoryIsLegal` | backend/app/services/execution_state.py:30-61 | in every run the audit log is a legal chain ending in the row's status |
| `ExecutionProtocol.ExecutionIsExclusive` | worker/app/worker.py:129-144 | at most one worker ever passes the claim, however often the run is delivered |
| `ExecutionProtocol.CancelledWhileQueuedNeverStarts` | backend/app/api/executions.py:267-285 | a run cancelled while queued stays cancelled and is claimed by nobody |
| `ExecutionProtocol.UndeliveredStaysFailed` | backend/app/api/executions.py:104-127 | after a 503 the run is failed for ever and never claimed, even if its queue field survived |
| `ExecutionProtocol.CancelRetriesAreBounded` | backend/app/api/executions.py:267-277 | a cancel request retries at most three times |
| `ExecutionProtocol.RereadSeesCancel` | worker/app/worker.py:167-171 | once the row is final, a worker not past its second reading never gets past it, in any continuation |
| `ExecutionProtocol.CancelIsNotMissed` | worker/app/worker.py:151-171 | a worker past that reading hears of a cancel exactly when it is subscribed and the cancel was signalled |
| `ExecutionProtocol.SentCancelArrives` | backend/app/api/executions.py:277-286 | once a cancel request has gone through, the row is cancelled and a subscribed worker has the message |
| `ExecutionProtocol.NobodyElseSignals` | backend/app/api/executions.py:277-286 | while the request that committed a cancel does not go on, nobody signals it and no worker hears of it |
| `ExecutionProtocol.CancelLeavesNothing` | worker/app/worker.py:95-117 | when `ExecutionCancelled` is caught no container is left and the thread has ended or never started, however creation interleaved with the kills |
| `ExecutionProtocol.PublishedFinalIsTheRows` | worker/app/worker.py:217-234 | every final status ever published is the row's |
| `ExecutionRuns.UnsubscribedWorkerMissesCancel` | worker/app/worker.py:164-165 | a run in which the subscription fails and a sent cancel is never heard |
| `ExecutionRuns.UnsentCancelIsMissed` | backend/app/api/executions.py:277-286 | a run in which a subscribed worker misses a committed cancel, the request having stopped before its signal |
| `ExecutionQueue.SelectHighestPriority` | backend/app/realtime/execution_queue.py:105-124 | None exactly for an empty snapshot, otherwise the first entry of maximal score |
| `ExecutionQueue.SaturatedBeatsFresh` | backend/app/realtime/execution_queue.py:81-102 | with the default weights 30 seconds of waiting beat anything under 4.5 |
| `ExecutionQueue.ThresholdIsTight` | backend/app/core/config.py:37-53 | at 4.5 seconds the two extremes tie |
| `ExecutionQueue.LeadNeverGrows` | backend/app/realtime/execution_queue.py:96 | an older run's lead from ageing is never negative and never grows while both wait |
| `ExecutionQueue.StepKeeps` | backend/app/realtime/execution_queue.py:203-231 | enqueues, scans, deletes and removals keep the invariant of hash and scans |
| `ExecutionQueue.RunKeeps` | backend/app/realtime/execution_queue.py:203-231 | so does every interleaving |
| `ExecutionQueue.QueueConserves` | backend/app/realtime/execution_queue.py:127-155 | enqueued = waiting, handed to one worker, or removed: disjoint, complete, payloads unaltered |
| `ExecutionQueue.HandedOutOnce` | backend/app/realtime/execution_queue.py:216-221 | a worker gets the payload that was enqueued, and no two get the same run |
| `ExecutionQueue.GivingUpMeansOthersProgressed` | backend/app/realtime/execution_queue.py:205-223 | giving up means eight different runs were taken by others, none of which had left the hash when the call began |
| `ExecutionQueue.TakenDuringTheCall` | backend/app/realtime/execution_queue.py:205-223 | from that call on to its end, eight runs left the hash that had not before, none through this worker |
| `ExecutionQueue.SaturatedIsNotPassedOver` | backend/app/realtime/execution_queue.py:203-213 | the run chosen over one that waited 30 seconds had waited 4.5 itself, in every run |
| `ExecutionQueue.WaitingHash.constructor` | backend/app/realtime/execution_queue.py:38 | an empty hash |
| `ExecutionQueue.WaitingHash.Enqueue` | backend/app/realtime/execution_queue.py:140-154 | the field is set to the payload |
| `ExecutionQueue.WaitingHash.RemoveFromQueue` | backend/app/realtime/execution_queue.py:226-231 | true exactly when the field was there; it is gone |
| `ExecutionQueue.WaitingHash.Pop` | backend/app/realtime/execution_queue.py:203-223 | what is returned was enqueued with that payload, has left the hash, and when chosen scored no less than any run that waited all through the call; None means an empty hash or eight runs lost during the call |
| `RunConsole.EventTouchesItsRunOnly` | frontend/src/lib/runs.ts:37-80 | an event changes the run it names as if alone, and no other |
| `RunConsole.FoldWatches` | frontend/src/lib/runs.ts:36-80 | so does any list of events |
| `RunConsole.WatchSettles` | frontend/src/lib/runs.ts:53-55 | once the only possible final status is among the events it stays |
| `RunConsole.ConsoleAgreesWithDatabase` | frontend/src/lib/runs.ts:53-55 | any published status events, in any order and number, end in the row's status once a final one is included |
| `VersionHistory.SlotsNest` | backend/app/realtime/checkpoint.py:185-186 | versions in the same ten-minute slot are of the same day |
| `VersionHistory.VersionsToPrune` | backend/app/realtime/checkpoint.py:168-193 | returns the ids of exactly the rows that are old, no save, not the latest, and have a newer one in their slot |
| `VersionHistory.PruneSorted` | backend/app/realtime/checkpoint.py:175-193 | the loop over the slots seen |
| `VersionHistory.PruningIsIdempotent` | backend/app/realtime/checkpoint.py:168-193 | pruning again at the same instant removes nothing |
| `VersionHistory.DailyHistory` | backend/app/realtime/checkpoint.py:168-174 | at a day's age what stays is the latest, the saves and the newest of each day |
| `VersionHistory.PruneThins` | backend/app/realtime/checkpoint.py:168-193 | a prune keeps the newest of every day, every save and the latest |
| `VersionHistory.LastPruneDecides` | backend/app/realtime/checkpoint.py:168-193 | a last prune makes up for whatever earlier ones removed |
| `VersionHistory.AnyScheduleOfPrunes` | backend/app/realtime/checkpoint.py:168-193 | any schedule of prunes among autosaves, saves and promotions ends as the last prune alone would |
| `VersionHistory.ThresholdDecides` | backend/app/realtime/checkpoint.py:206-221 | one run of `prune_versions` on a history of thirty or more and on a thinned one agree exactly when enough versions are left or none was left to thin |
| `VersionHistory.ScheduleDecides` | backend/app/realtime/checkpoint.py:201-221 | for any schedule of runs among autosaves, saves and promotions: the last makes up for the others exactly when there were never thirty versions, or thirty are left, or nothing is left to thin |
| `VersionHistory.ThresholdCanStopThinning` | backend/app/realtime/checkpoint.py:50 | two prunes that end with more versions than the second alone |
| `VersionHistory.ScheduleCanStopThinning` | backend/app/realtime/checkpoint.py:206-210 | thirty autosaves of one day, a prune that day and one days later, which leaves more than it alone would |
| `VersionTable.StepKeeps` | backend/app/realtime/checkpoint.py:108-134 | checkpoints, saves, promotions and a prune's deletes keep the invariant, a read and its deletes being apart |
| `VersionTable.RunKeeps` | backend/app/realtime/checkpoint.py:201-221 | so does every run, and the top number never falls |
| `VersionTable.NumbersAreNeverReused` | backend/app/realtime/checkpoint.py:124-131 | a new row gets the number after the highest ever given |
| `VersionTable.SavesAreNeverDeleted` | backend/app/realtime/checkpoint.py:201-221 | a save is never deleted, whatever falls between a prune's read and its deletes |
| `VersionTable.LatestIsNeverDeleted` | backend/app/realtime/checkpoint.py:187-188 | nor is the latest version, even when a newer one came after the read |
| `VersionTable.HistoryIsImmutable` | backend/app/realtime/checkpoint.py:108-134 | a row keeps number, content and time for ever; later rows have higher numbers |
| `VersionTable.Versions.constructor` | backend/app/realtime/checkpoint.py:108-134 | no versions |
| `VersionTable.Versions.FindLatest` | backend/app/realtime/checkpoint.py:112-118 | None exactly for no rows, otherwise the row of the highest number |
| `VersionTable.Versions.CheckpointRoom` | backend/app/realtime/checkpoint.py:108-134 | a new row exactly for a new non-empty document; a save of the same text promotes the latest autosave |
| `VersionTable.Versions.DeleteAll` | backend/app/realtime/checkpoint.py:218-219 | the chunks delete exactly the listed rows |
| `Changes.LineStats` | backend/app/realtime/changes.py:12-23 | added less removed is the growth in lines, whatever tiling was chosen |
| `Changes.LineStatsTelescope` | backend/app/realtime/changes.py:12-23 | both counts are non-negative and their difference is that growth |
| `Changes.LeftoverIsSmall` | backend/app/realtime/changes.py:46-53 | the leftover is not negative and, once anybody typed, below the number of authors |
| `Changes.SharesAreExact` | backend/app/realtime/changes.py:46-53 | the shares of one total add up to it exactly when somebody typed or there are enough authors for it |
| `Changes.SharesCanFallShort` | backend/app/realtime/changes.py:46-53 | two authors with weight zero share three lines as two |
| `Changes.SharesAreFair` | backend/app/realtime/changes.py:46-53 | each share is less than one from its exact proportion |
| `Changes.LargestRemainder` | backend/app/realtime/changes.py:46-53 | the shares after the bumps, in place |
| `Attribution.SplitIsExactly` | backend/app/realtime/changes.py:26-43 | both totals are shared exactly when there is one author, or somebody typed, or there are enough authors to take one line each |
| `Attribution.SplitIsExact` | backend/app/realtime/changes.py:26-43 | a window's added and removed lines are shared out exactly |
| `Attribution.CloseBalances` | backend/app/realtime/manager.py:128-136 | closing a window moves its line balance to the pending counts |
| `Attribution.EditBalances` | backend/app/realtime/manager.py:106-126 | an edit keeps the balance, also when it closes another author's window |
| `Attribution.CheckpointBalances` | backend/app/realtime/checkpoint.py:136-143 | taking the pending counts keeps it: nothing but zero entries is dropped |
| `Attribution.RunBalances` | backend/app/realtime/manager.py:106-147 | so does every run |
| `Attribution.AttributionTelescopes` | backend/app/realtime/manager.py:106-147 | over any run, rows written plus pending counts are the growth of the text from hydration to the last window close |
| `Attribution.AttributedRoom.constructor` | backend/app/realtime/manager.py:95-104 | a hydrated room, no window open |
| `Attribution.AttributedRoom.ResetWindow` | backend/app/realtime/manager.py:144-147 | no window |
| `Attribution.AttributedRoom.Split` | backend/app/realtime/changes.py:26-43 | one author gets everything, several by largest remainder |
| `Attribution.AttributedRoom.Close` | backend/app/realtime/manager.py:128-136 | the open window becomes pending counts |
| `Attribution.AttributedRoom.Apply` | backend/app/realtime/manager.py:106-126 | a pause and another author close the window; an update that changes nothing is not counted |
| `Attribution.AttributedRoom.TakePending` | backend/app/realtime/manager.py:138-142 | the non-zero counts are returned and cleared |
| `Sorting.SortDescSorts` | backend/app/realtime/checkpoint.py:175 | descending and a permutation, as `sorted(..., reverse=True)` |
| `Varint.WriteVarUint` | backend/app/realtime/awareness.py:66-72 | the varint of the number |
| `Varint.ReadVarUintAt` | backend/app/realtime/awareness.py:51-63 | never past the end, at most five bytes, and what the reader on the rest of the bytes gives |
| `Varint.VarUintReadBack` | backend/app/realtime/awareness.py:51-72 | the reader inverts the writer below 2^35, whatever follows, and refuses every larger number |
| `Varint.GroupsWithMore` | backend/app/realtime/awareness.py:51-63 | what is read does not depend on what follows |
| `AwarenessCodec.ReadEntryAt` | backend/app/realtime/awareness.py:84-98 | one entry or the error the checks give, in their order |
| `AwarenessCodec.ReadEntriesAt` | backend/app/realtime/awareness.py:83-98 | that many entries, or the first error |
| `AwarenessCodec.DecodeUpdate` | backend/app/realtime/awareness.py:75-101 | the entries, or the first error: size, count, entries, trailing bytes |
| `AwarenessCodec.EncodeUpdate` | backend/app/realtime/awareness.py:104-109 | the count and the entries, or None where a state cannot be encoded |
| `AwarenessCodec.EntryReadBack` | backend/app/realtime/awareness.py:84-108 | an encoded entry is read back if within the limits, and refused otherwise |
| `AwarenessCodec.UpdateRoundTrip` | backend/app/realtime/awareness.py:75-109 | decoding what could be encoded gives it back exactly within the limits, and is an error outside them |
| `AwarenessCodec.NothingMayFollow` | backend/app/realtime/awareness.py:99-100 | nothing longer that begins with an accepted update is accepted |
| `Awareness.IdentityComesFromTheLogin` | backend/app/realtime/awareness.py:112-121 | user id and name are the login's whatever the client claims; cleaning twice is cleaning once |
| `Awareness.OthersCannotTouch` | backend/app/realtime/awareness.py:144-145 | another user's update neither changes, erases nor relays anything about a present cursor |
| `Awareness.AcceptKeepsStamps` | backend/app/realtime/awareness.py:138-164 | every stored and relayed state names its real user |
| `Awareness.CursorsAreCountedOrTakenOver` | backend/app/realtime/awareness.py:138-164 | after any update a connection's cursors are those counted, at most four or what it had, plus one per takeover |
| `Awareness.OnlyTakeoversExceedFour` | backend/app/realtime/awareness.py:156-162 | after an update a connection has at most four cursors, or what it had, and one more per takeover |
| `Awareness.ExceedsFourExactly` | backend/app/realtime/awareness.py:156-162 | within the limit, an announcement leads beyond four exactly when there are four and it takes over another |
| `Awareness.TakeoverExceedsFour` | backend/app/realtime/awareness.py:161-162 | a connection with four cursors takes over a fifth |
| `Awareness.RoomAwareness.constructor` | backend/app/realtime/awareness.py:132-136 | no cursors |
| `Awareness.RoomAwareness.Accept` | backend/app/realtime/awareness.py:138-164 | table and relayed entries after the whole update |
| `Awareness.RoomAwareness.Snapshot` | backend/app/realtime/awareness.py:166-168 | every cursor of the other sockets exactly once, with its clock and state |
| `Awareness.RoomAwareness.Drop` | backend/app/realtime/awareness.py:170-177 | exactly the socket's cursors go, each announced once at its clock plus one |
| `AwarenessHandoff.OneEntry` | backend/app/realtime/awareness.py:142-163 | one announcement of the client is ignored if older, otherwise stored and relayed |
| `AwarenessHandoff.OthersLeaveAlone` | backend/app/realtime/awareness.py:138-164 | no update from elsewhere touches the client's cursor |
| `AwarenessHandoff.StepKeeps` | backend/app/realtime/gateway.py:260-269 | late messages, the drop, the announcements and everybody else keep the invariant, in any order |
| `AwarenessHandoff.RunKeeps` | backend/app/realtime/gateway.py:308-313 | so does every run |
| `AwarenessHandoff.ObserverShowsTheLatest` | frontend/src/lib/ws.ts:203-213 | after two announcements on the new socket an observer shows the last, and newcomers are replayed it, whatever the order |
| `AwarenessHandoff.FirstAnnouncementShows` | frontend/src/lib/ws.ts:203-206 | the first one is shown exactly when the removal did not use its clock |
| `AwarenessHandoff.OneTickIsNotEnough` | frontend/src/lib/ws.ts:203-206 | one tick ahead, the cursor can stay gone |
| `DebugFraming.ReadMessage` | backend/app/debug/dap.py:121-140 | the outcome of reading header lines and a body from what has arrived |
| `DebugFraming.FrameRead` | backend/app/debug/dap.py:142-147 | a written frame is read back whole, leaving what follows |
| `DebugFraming.MoreBytes` | backend/app/debug/dap.py:121-140 | an outcome reached on part of the stream stands when more arrives |
| `DebugFraming.ChunksDoNotMatter` | backend/app/debug/dap.py:121-140 | for any bytes, reading in two goes gives the messages and the stop of reading at once |
| `DebugFraming.WireRoundTrip` | backend/app/debug/dap.py:121-147 | reading the frames of any non-empty bodies gives those bodies, then waits or ends |
| `DebugFraming.PartOfTheWire` | backend/app/debug/dap.py:121-147 | at any moment the messages read are a prefix of those sent and the rest is still to come |
| `DebugMux.Demux` | backend/app/debug/docker_adapter.py:77-91 | stdout bytes and stderr texts in order; other streams skipped, an unfinished frame dropped |
| `DebugMux.CutsDoNotMatter` | backend/app/debug/docker_adapter.py:77-91 | for any bytes, demultiplexing in two goes gives the same |
| `DebugMux.DemuxInvertsMux` | backend/app/debug/docker_adapter.py:77-91 | frames come apart into the stdout and the stderr they carried |
| `DebugMux.MessagesSurviveTheMultiplexing` | backend/app/debug/docker_adapter.py:18-23 | messages framed, cut anywhere into stdout frames and mixed with others are read back exactly |
| `DebugMux.MessagesSoFar` | backend/app/debug/docker_adapter.py:77-91 | and at any moment what has been read is a prefix of them |
| `DebugClient.StepKeeps` | backend/app/debug/dap.py:83-162 | numbers are used once and every waiting future is found under its own |
| `DebugClient.FirstToSettleWins` | backend/app/debug/dap.py:90-94 | in any session a future is completed by the first response with its number, timeout, hang-up or close, and never again |
| `DebugClient.LateRequestIsNeverAnswered` | backend/app/debug/dap.py:106-107 | after the loop has ended a new request is never answered, and waits unless it times out or the client is closed |
| `DebugClient.SettledExactlyWhenInTime` | backend/app/debug/dap.py:106-107 | once the loop has ended, a request not timed out or closed is settled exactly when it was started while the loop ran |
| `DebugClient.RequestAfterHangup` | backend/app/debug/dap.py:149-162 | a fresh client after a hang-up and a request: registered, waiting, nobody reading |
| `DebugClient.DapClient.constructor` | backend/app/debug/dap.py:34-44 | numbers start at 1, nothing pending |
| `DebugClient.DapClient.StartRequest` | backend/app/debug/dap.py:149-162 | a new waiting future under a new number |
| `DebugClient.DapClient.ReadResponse` | backend/app/debug/dap.py:90-94 | its future is completed if still waiting, and no longer pending |
| `DebugClient.DapClient.TimeOut` | backend/app/debug/dap.py:184 | the future is given up; its number stays pending |
| `DebugClient.DapClient.FailPending` | backend/app/debug/dap.py:114-119 | every waiting pending future fails and none is pending |
| `DebugClient.DapClient.EndLoop` | backend/app/debug/dap.py:106-107 | no future is left waiting |
| `DebugClient.DapClient.CloseClient` | backend/app/debug/dap.py:70-72 | no future is left waiting |
| `Folders.NoFolderInItself` | backend/app/models/folder.py:23-25 | in a forest no folder is among its own ancestors |
| `Folders.CheckParent` | backend/app/api/folders.py:17-29 | ends on any table; yes exactly when the whole chain is in the project and free of the moved folder; otherwise the first bad ancestor decides the error |
| `Folders.MoveKeepsForest` | backend/app/api/folders.py:111-121 | a move within the project keeps the forest exactly when the folder is not above its new parent |
| `Folders.SubtreeMovesAlong` | backend/app/api/folders.py:119-121 | the folders inside are the same before and after the move |
| `Folders.CreateKeepsForest` | backend/app/api/folders.py:69-78 | a folder under a parent of its project keeps the forest |
| `Folders.DeleteKeepsForest` | backend/app/api/folders.py:164-165 | a cascading delete keeps it |
| `Folders.Subtree` | backend/app/models/folder.py:23-37 | the cascade takes exactly the folder and what is below it |
| `Folders.HandleKeeps` | backend/app/api/folders.py:69-165 | every request keeps a closed, acyclic forest within each project |
| `Folders.RunKeeps` | backend/app/api/folders.py:69-165 | so does every sequence of requests |
| `Folders.AllowedExactlyWhenSafe` | backend/app/api/folders.py:17-29 | in a forest the check says yes exactly when the parent is in the project and the move leaves a forest |
| `Folders.OverlappingMovesExactly` | backend/app/api/folders.py:111-131 | two moves that passed on the same table leave a forest exactly unless each folder is above the other's new parent |
| `Folders.OverlappingRequestsExactly` | backend/app/api/folders.py:111-131 | however checks and commits of any requests interleave, the table is a forest throughout exactly when no commit moves a folder under one that by then is inside it |
| `Folders.OverlappingMovesCanLoop` | backend/app/api/folders.py:111-131 | two moves that both pass the check before either commits make a loop |
| `Folders.FolderTable.constructor` | backend/app/models/folder.py:16-25 | no folders |
| `Folders.FolderTable.CreateFolder` | backend/app/api/folders.py:69-79 | the folder is there under a new id, or the table is unchanged and the parent was not allowed |
| `Folders.FolderTable.MoveFolder` | backend/app/api/folders.py:95-121 | moved exactly when the folder is in the project and the parent allowed |
| `Folders.FolderTable.DeleteFolder` | backend/app/api/folders.py:148-165 | deleted with its subtree exactly when in the project |

## Left out

- pycrdt and Yjs internals: text positions, conflict resolution and the encoding of updates; an operation set says which edits a document has, not how they read.
- Dropped sends: a frame that `_safe_send_bytes` discards after a timeout. Convergence is proved for connections on which every queued frame arrives.
- AwarenessHandoff.ObserverShowsTheLatest: does not cover a client that clears its own state (closing the tab) while the old socket is still open, because then there is nothing to show.
- AwarenessHandoff.Observe: y-protocols is not part of this repository; its rule for incoming clocks is modelled as described above.
- AwarenessCodec.EncodeUpdate: what an encoding error does to the connection in whose name the update was being relayed.
- The older `awareness` and `presence` messages, project presence, pings, heartbeats and the retry delays.
- DebugFraming.ReadMessage: the line limit of asyncio's `StreamReader` and the JSON decoding of bodies.
- DebugClient.DapClient.ReadResponse: events and their handlers, which touch no future; a `request_seq` of JSON `true` counts as 1, as in Python.
- Debug runs in the cleanup after a cancel: the debugger's container is not among the modelled `containers`, although it is named `concord-exec-N` like that of a run; `DebugRun` stops it, and `ExecutionProtocol` covers the status outcome only.
- At most one debug session per project: the claim on the slot and the run are separate steps, and two simultaneous starts are not excluded by the code.
- ExecutionQueue.WaitingHash.Enqueue: the wake-up list beside the hash; an id is enqueued once, as ids come from new rows.
- Starvation freedom in the queue: ageing saturates, so under permanent overload it does not hold.
- The age thresholds of the sweeper: the model lets it take any active row at any time, which includes all that the thresholds allow.
- The hydration window: `checkpoint_once` does not test `hydrated`; the version properties are about rooms that are.
- VersionTable.SavesAreNeverDeleted: deleting the file or its project, and a deleted user's `saved_by` becoming NULL, are not steps of the model.
- Floating-point rounding in `compute_priority` and `_largest_remainder`.
- Folders.FolderTable.MoveFolder: renaming, roles, deleting a whole project and the broadcast that follows; file rows inside a deleted folder.
- RestoreEdit.TextEdit: carrying out the edit on a scratch document; text is indexed as Python indexes it.
- HTTP routing, authentication, LLM providers, the agent, the user interface, search and formatting.
