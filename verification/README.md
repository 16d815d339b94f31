# Zenstier verification models

Dafny models of the parts of Zenstier where correctness depends on several pieces of code
acting together, with proofs of what those parts promise. `dafny verify dfyconfig.toml`
checks everything.

## What is modelled

| file | part of the system |
|---|---|
| `Prelude.dfy`, `Protocol.dfy` | small shared types; the agent's messages |
| `DedupeCache.dfy` | the agent's duplicate-suppression cache |
| `Dispatcher.dfy` | the agent's dispatcher: bounded queue, worker pool, dedupe, replay of results |
| `CapWriter.dfy` | head-and-tail capture of command output |
| `ChunkEmitter.dfy` | live output: two emitters, the ticker, and the sink that numbers chunks |
| `CommandRow.dfy` | the server's command row under its four writers, and the worker that hosts two of them |
| `CommandService.dfy` | dispatching one command to many devices |
| `EventStream.dfy` | the browser's reducer |
| `CommandPath.dfy`, `CommandAgreement.dfy`, `CommandBounds.dfy`, `CommandOutcome.dfy` | agent, network, row and browser composed; when row and browser agree, and on which output; what the bounds of the agent's cache buy them; how a run ended, in the words shown |
| `RateLimit.dfy`, `DispatchRate.dfy` | token buckets and the fixed window; what the dispatch script lets through over a run |
| `Base32.dfy` | the base32 loops of the TOTP module |
| `SseFrames.dfy`, `SseStandard.dfy` | the frame loop of the AI stream; the framing of the standard it reads |
| `Schedules.dfy` | schedule claiming by compare-and-set |
| `Alerts.dfy`, `AlertRaces.dfy` | alert evaluation with a dwell time; one row under overlapping passes and a disable |
| `Retention.dfy` | hourly metric roll-up and pruning |
| `Teams.dfy`, `TeamPermissions.dfy`, `TeamInvariant.dfy`, `TeamRank.dfy`, `TeamStore.dfy` | teams, roles, members, invites; what each operation demands and does; what every operation keeps; how far rank reaches; the tables updated in place |
| `TeamRaces.dfy`, `TeamRaceEffects.dfy`, `TeamInvites.dfy` | the same operations overlapping: one block of checks, then the writes; what survives and what does not; invites and joins |

Each component that keeps state in place is a class whose methods are proved equal to a
function on values; properties of runs are then proved about that function as a state
machine. A protocol is a set of atomic steps interleaved in every order, cut where the code
can be interrupted, so a theorem about all step sequences is one about all schedules of those
steps. For teams there are two levels: `TeamInvariant.dfy` and `TeamRank.dfy` take an
operation as one step, and `TeamRaces.dfy` lets the blocks of checks and the writes of any
number of operations interleave.

### Where the code does less than its text says

The code is modelled as it is; each of these has a concrete run or an exact condition.

- Row and browser may end differently. The row is written and the event published
  separately, and handlers overlap, so two results of one id (a refusal and a run, say) may be
  stored in one order and shown in the other; so may a result and the reaper's timeout. From a
  live row nobody was told about, some schedule ends so exactly if the results sent, and for a
  dispatched row the reaper's TIMEOUT, are not all the same (`CommandAgreement.ApartIff`).
- The update to DISPATCHED is unconditional, so a result that lands before it is undone
  (`CommandRow.FastResultIsLost`); while it is outstanding, row and browser can end apart exactly
  if any result was sent (`CommandAgreement.UndispatchedApartIff`).
- An id redelivered after the ttl is executed again (`CommandBounds.RunsAgainIff`).
- A reaper that read the row before the result arrived replaces a success
  (`CommandRow.StaleReapOverwritesSuccess`); the last result stays exactly if no reaper write
  past the deadline it read follows (`CommandRow.LastResultStaysIff`).
- A publish that fails leaves the batch's rows PENDING, and the reaper never takes them
  (`CommandService.Service.DispatchCommand`, `CommandRow.NeverDispatchedNeverReaped`).
- If an id runs twice, both runs number their chunks from 0, and a browser may be shown two
  chunks of one number exactly if the runs published different ones (`CommandAgreement.ConflictIff`).
- A result carrying output that overtakes the first chunk shadows that chunk in the browser
  (`EventStream.OvertakingResultShadowsChunk`; the exact condition is `EventStream.ShowsExpectedIff`).
- Overlapping drains of one output stream may be numbered in the opposite order
  (`ChunkEmitter.OverlapReorders`); numbers follow the stream exactly if each sink takes the
  oldest piece in flight (`ChunkEmitter.SunkInOrderIff`).
- An id that was removed from the dedupe cache and added again can be evicted early
  (`DedupeCache.ReaddedIdEvictedEarly`; the exact condition is `DedupeCache.YoungEvictedIff`).
- A capture budget of one byte makes the ring empty, and the first non-empty write faults; the
  `ok` result of `CapWriter.Writer.Write` is false exactly then.
- A broadcast takes one user token however many devices it targets
  (`RateLimit.UserCostIndependentOfTargets`); `README.md:223-224` and the comment at
  `src/server/infrastructure/ratelimit/ratelimit.ts:9-10` say one per target.
- The free check of the fixed window disagrees with the charge for a limit below one on a key
  that has no window yet (`RateLimit.CheckAgreesWithChargeIff`); no caller passes such a limit.
- A publish to the broadcast topic reaches group members that were reported as skipped
  (`CommandService.SkippedNotSentIff`).
- Two workers can dispatch the same occurrence (`Schedules.LateResumeReclaims`,
  `Schedules.LateResumeRun`); the comment at
  `src/server/modules/schedules/schedule.service.ts:188-190` says never. It happens exactly if
  a resume lands on an instant no later than one already claimed (`Schedules.RepeatsIff`). The
  compare-and-set can succeed on a row written since it was read exactly if a resume lands no
  later than an instant still held (`Schedules.StaleSuccessIff`), and a missed occurrence is
  replayed exactly if one lands no later than a claiming pass's clock (`Schedules.ReplayedIff`).
- A re-run of the roll-up is not harmless once the raw cutoff has fallen inside an hour: the
  row is replaced by the aggregate of the samples that are left (`Retention.SpoiledIffStraddled`,
  `Retention.DefaultsLoseSamples`; over runs, rows stay right exactly if no roll-up comes while a
  bucket is partial, `Retention.AlwaysTrueIff`), and the cutoff is aligned only when the pass starts exactly
  on the hour (`Retention.CutoffAlignedIff`).
- A pass looks an alert row up and writes it later. Passes that overlap each notify what the
  row they found calls for, so a stretch may fire twice (`AlertRaces.NotifiedTwiceIff`); row and notices follow the readings exactly if
  every write found what still decides alike (`AlertRaces.InSyncIff`).
- "Clean slate" after disabling an alert rule holds exactly if no breached reading of a pass
  already under way lands afterwards (`Alerts.CleanSlateIff`, `AlertRaces.ClearedIff`), and a row
  written so takes over the beginning of the old stretch (`AlertRaces.OldStretchSurvivesIff`).
- The frame loop of the AI stream knows only LF LF, while the standard also ends lines at CR and
  CR LF: the two agree exactly if no CR stands before the last LF LF and the text after it ends no
  block (`SseStandard.FramesMatchStandardIff`); CR LF lines never form a frame
  (`SseFrames.CarriageReturnsHideFrames`).
- Two overlapping accepts of one invite both join (`TeamRaceEffects.BothAcceptsJoin`). An
  invitation that overlaps its addressee's join is left pending for a member, whose role it then
  overwrites (`TeamInvites.LateInviteOverwrites`); over runs, no invite is pending for a member
  exactly if every invitation is written while nobody at its address is one
  (`TeamInvites.AlwaysCleanIff`), and then an accept overwrites a membership exactly if another
  accept by the same user landed since its checks (`TeamInvites.JoinOverwritesIff`). A switch that
  lands after a removal is through leaves a dangling active team
  (`TeamRaceEffects.SwitchKeepsActiveIff`). Owner and rank results survive every overlap.

## Model

| member | source | states |
|---|---|---|
| DedupeCache.EvictMakesRoom | agent/internal/dedupe/cache.go:83-100 | The eviction loop ends on the length of `order`, leaves room for one entry, keeps every remembered id in `order`, and changes no entry it keeps |
| DedupeCache.RunValid | agent/internal/dedupe/cache.go:42-70 | After any sequence of Add, Remove and Complete the entries fit the capacity and each is in `order` |
| DedupeCache.AddValid | agent/internal/dedupe/cache.go:42-53 | Add keeps that invariant and always leaves its id remembered |
| DedupeCache.AddedIff | agent/internal/dedupe/cache.go:42-53 | Add reports an id first exactly if eviction has dropped it or its entry is as old as the ttl; it is then entered as running at the end of `order`, and no other entry changes |
| DedupeCache.CallsMean | agent/internal/dedupe/cache.go:56-70 | Remove takes exactly its id; Complete sets exactly its id's result and marks it finished |
| DedupeCache.OldFrontGoes | agent/internal/dedupe/cache.go:83-100 | An entry older than the ttl at the front is evicted; a cache made without sizes holds 1024 ids for an hour |
| DedupeCache.EvictionCause | agent/internal/dedupe/cache.go:83-100 | An id is evicted only by age or after at least capacity - 1 distinct other ids stand behind its first occurrence in `order` |
| DedupeCache.YoungEvictedIff | agent/internal/dedupe/cache.go:83-100 | An entry still young is evicted if and only if no remembered id stands before its first occurrence in `order` and at least capacity - 1 other remembered ids stand behind it; stale occurrences count as first ones |
| DedupeCache.YoungEvictedWhenFull | agent/internal/dedupe/cache.go:83-100 | Equivalently: the cache is full and nothing remembered stands before that occurrence |
| DedupeCache.FrontGoesAtCapacity | agent/internal/dedupe/cache.go:88-96 | The bound is tight: at the front of a full cache the id goes |
| DedupeCache.AddPinned | agent/internal/dedupe/cache.go:42-53 | While an id is younger than the ttl and at most capacity - 2 others were recorded, Add of it reports a duplicate and Add of another leaves its entry untouched |
| DedupeCache.ReaddedIdEvictedEarly | agent/internal/dedupe/cache.go:56-60 | A concrete run in which Remove followed by Add leaves a stale occurrence by which the fresh entry is evicted although one other id was recorded since |
| DedupeCache.Cache.EvictLocked | agent/internal/dedupe/cache.go:83-100 | The loop over the map and slice in place equals the eviction function |
| DedupeCache.Cache.Add | agent/internal/dedupe/cache.go:42-53 | Adds in place what the specification adds and reports whether the id is new |
| DedupeCache.Cache.Remove | agent/internal/dedupe/cache.go:56-60 | Forgets the entry and leaves `order` alone |
| DedupeCache.Cache.Complete | agent/internal/dedupe/cache.go:63-70 | Stores the result of a remembered id and marks it finished |
| DedupeCache.Cache.CachedResult | agent/internal/dedupe/cache.go:73-81 | Reports nothing for an unknown id, else the stored result and whether it runs |
| Dispatcher.WorkIsRunnable | agent/internal/dispatch/dispatcher.go:98-135 | Only unexpired work of version 1 is queued, a command only with text, under the sender's id or, for a broadcast, under the derived one |
| Dispatcher.WorkIff | agent/internal/protocol/protocol.go:81-105 | A payload becomes work exactly if it has version 1, an id of its own or a derived one, is not expired, and executes a non-empty command (type "exec" or none), pings or collects facts; it is queued as it came, under that id and with type "exec" filled in |
| Dispatcher.ControlIff | agent/internal/dispatch/dispatcher.go:125-135 | A cancel with a target cancels exactly that target; a membership change sets exactly its groups |
| Dispatcher.RefusedIff | agent/internal/dispatch/dispatcher.go:114-123 | "invalid_command" exactly for the malformed ones with an id, "expired" exactly for well-formed ones too late, nothing exactly for those without an id |
| Dispatcher.OutcomeReported | agent/internal/dispatch/dispatcher.go:196-279 | A run reports its id, exit code, output and error, the status its outcome has, and "pong" for a ping |
| Dispatcher.AdmittedMeans | agent/internal/dispatch/dispatcher.go:153-187 | An id not remembered is queued at the end, acknowledged as "queued" and remembered as running if the queue has room, and else refused as "queue full" and forgotten; a remembered young id is not queued |
| Dispatcher.RefusalMeans | agent/internal/dispatch/dispatcher.go:259-268 | A refusal sends one rejected result with its code under its id and changes nothing else; a message without id changes nothing |
| Dispatcher.GroupsMean | agent/internal/dispatch/dispatcher.go:132-151 | A membership change answers "unsupported_type", "internal" or completed, and stores the latter for its id |
| Dispatcher.RunInv | agent/internal/dispatch/dispatcher.go:74-297 | Over every interleaving of deliveries, workers and ticks: each enqueued job is in exactly one of queued, executing, finished; both pools keep their bounds; each finished job published its one result; only terminal statuses are sent as results; every replayed result was produced before |
| Dispatcher.StartInv | agent/internal/dispatch/dispatcher.go:60-68 | The new dispatcher satisfies that invariant |
| Dispatcher.AtMostOnce | agent/internal/dispatch/dispatcher.go:153-187 | An id first recorded at t and never removed as busy is queued at most once, and is in at most one place, over every interleaving in which less than the ttl passed and at most capacity - 2 other ids were recorded |
| Dispatcher.Remembered | agent/internal/dispatch/dispatcher.go:153-187 | Over those same runs the id stays remembered, and once a run of it has ended its entry is marked finished |
| Dispatcher.ConservedById | agent/internal/dispatch/dispatcher.go:173-211 | For each id, the times it is queued, executing and finished add up to the times it was enqueued |
| Dispatcher.DuplicateGetsTheResult | agent/internal/dispatch/dispatcher.go:153-171 | Over every run in which an id first recorded at t is at most once queued as above, a duplicate of it that arrives once its run is finished is answered with exactly the result that run published, unless a membership change used the id |
| Dispatcher.RunningDuplicateIsAcknowledged | agent/internal/dispatch/dispatcher.go:156-168 | A duplicate is answered with nothing, with "running", or with a stored result, according to whether its entry is gone, has no result, or has one |
| Dispatcher.ResultsAgree | agent/internal/dispatch/dispatcher.go:281-297 | All results published under an id that was queued at most once, and never refused or used by a membership change, are the same message |
| Dispatcher.RunOf | agent/internal/dispatch/dispatcher.go:292-297 | Every published result that is neither a refusal nor a membership answer is that of a finished run |
| Dispatcher.HandledIsRun | agent/internal/dispatch/dispatcher.go:98-187 | A handler nothing interleaves with is a legal run of its atomic steps, with the same end |
| Dispatcher.HandledInv | agent/internal/dispatch/dispatcher.go:98-187 | So it keeps the invariant |
| Dispatcher.Dispatcher.HandleMessage | agent/internal/dispatch/dispatcher.go:98-187 | Handling a message in place: refuse, cancel, change groups, replay or enqueue, as specified; in the payload's fields, an unexpired command with text and a new id is queued and acknowledged if there is room, and a cancel reaches exactly the run it names |
| Dispatcher.Dispatcher.BeginRun | agent/internal/dispatch/dispatcher.go:83-91 | A worker takes the oldest job within the worker bound and, for a command, announces it as running |
| Dispatcher.Dispatcher.EndRun | agent/internal/dispatch/dispatcher.go:234-297 | A finished run stores its terminal result in the cache and publishes it, with the run's exit code and output |
| CapWriter.Itoa | agent/internal/executor/capwriter.go:95-107 | The digits written from the buffer's end are the numeral of n and parse back to n; a machine integer fits the 20 bytes |
| CapWriter.DecimalParses | agent/internal/executor/capwriter.go:95-107 | Every numeral parses back to its number |
| CapWriter.Writer.Write | agent/internal/executor/capwriter.go:27-58 | Takes all of p and reports its full length, for every budget that leaves the ring room; faults exactly otherwise |
| CapWriter.Writer.OrderedTail | agent/internal/executor/capwriter.go:85-93 | The ring unrolled is the last bytes of the stream in order |
| CapWriter.Writer.Dropped | agent/internal/executor/capwriter.go:62-68 | Dropped is max(0, total - 2 * half) |
| CapWriter.Writer.Truncated | agent/internal/executor/capwriter.go:60-60 | Truncated exactly when the stream exceeds 2 * half |
| CapWriter.Writer.Bytes | agent/internal/executor/capwriter.go:71-82 | The whole stream if it fits, else first half, marker with the dropped count, last half, whatever the split into writes |
| CapWriter.RenderedIs | agent/internal/executor/capwriter.go:71-82 | What that rendering is: a stream of up to 2 * half bytes whole, of a longer one the first and last half bytes around a line with the number missing |
| CapWriter.WriteAll | agent/internal/executor/capwriter.go:27-58 | Writing the pieces of any split captures the concatenation |
| ChunkEmitter.RunConserved | agent/internal/executor/stream.go:34-72 | Over all interleavings of writers, flusher and Close: written = drained pieces in order + buffer, each drained piece is held by one thread or was sunk once, and sequence numbers are exactly 0..n-1 across both streams |
| ChunkEmitter.InitialConserved | agent/internal/executor/stream.go:27-32 | True of new emitters |
| ChunkEmitter.SequenceOrderIsStreamOrder | agent/internal/executor/stream.go:50-72 | If every sink takes the oldest piece in flight of its stream, the chunks of a stream by sequence number, then what is in flight and buffered, rebuild what was written |
| ChunkEmitter.SunkInOrderIff | agent/internal/executor/stream.go:51-65 | Over every interleaving: on both streams the pieces by sequence number are the first pieces drained, in order, if and only if every sink took the oldest piece in flight |
| ChunkEmitter.PrefixIffOldest | agent/internal/executor/stream.go:51-65 | The same from any state still in order |
| ChunkEmitter.MisplacedForever | agent/internal/dispatch/dispatcher.go:221-232 | A piece numbered before an older one of its stream stays so in every continuation |
| ChunkEmitter.DisjointIsOldest | agent/internal/executor/stream.go:51-65 | Drains of a stream that do not overlap are such runs |
| ChunkEmitter.OverlapReorders | agent/internal/executor/stream.go:55-64 | Two overlapping drains can be numbered in the opposite order |
| ChunkEmitter.ClosedKeepsBytes | agent/internal/executor/stream.go:51-72 | Bytes written after Close stay in the buffer and are never sunk |
| ChunkEmitter.CloseMeans | agent/internal/executor/stream.go:67-72 | Close keeps the buffer and what was drained, touches nothing else, and nothing is drained from then on |
| ChunkEmitter.Sequencer.Sink | agent/internal/dispatch/dispatcher.go:221-232 | Numbers chunks 0, 1, 2, ... and publishes each once |
| ChunkEmitter.StreamEmitter.Write | agent/internal/executor/stream.go:34-48 | Reports full consumption, appends, and flushes when full |
| ChunkEmitter.StreamEmitter.Flush | agent/internal/executor/stream.go:51-65 | Sinks the whole buffer once, or nothing when empty or closed |
| ChunkEmitter.StreamEmitter.Close | agent/internal/executor/stream.go:67-72 | Drains what is left, then refuses further drains |
| CommandRow.MapStatusTerminalIff | src/server/worker/handlers.ts:283-299 | "running" is the one status that maps to a live row; every terminal agent status maps to a terminal one |
| CommandRow.ResultMeans | src/server/worker/handlers.ts:240-299 | A result stores its exit code, output and error and leaves the rest of the row; status by status, row and event say the same: SUCCEEDED for completed or none, FAILED for failed or rejected, TIMEOUT, CANCELED, RUNNING |
| CommandRow.ProgressMeans | src/server/worker/handlers.ts:188-238 | An acknowledgement other than "queued" moves a PENDING or DISPATCHED row to RUNNING and changes nothing else; a chunk changes no row; each event carries the message's fields |
| CommandRow.DueIff | src/server/worker/main.ts:118-152 | A row is due exactly if it is DISPATCHED or RUNNING and its timeout and thirty seconds have passed since its dispatch; expiring sets status and error only, and the event says TIMEOUT |
| CommandRow.OverdueWriteIff | src/server/worker/main.ts:127-140 | The same deadline for a pass that read the row earlier |
| CommandRow.AnnouncedOnce | src/server/worker/main.ts:141-152 | A pass announces each due row exactly once and nothing else |
| CommandRow.TerminalAbsorbingIff | src/server/worker/handlers.ts:189-267 | A step on a terminal row leaves it terminal if and only if it is neither the dispatch update nor a result with status "running" |
| CommandRow.TerminalAbsorbing | src/server/worker/main.ts:118-140 | Over all interleavings of accepted, result, reaper read and reaper write after the dispatch update, a terminal row stays terminal |
| CommandRow.FinishedIffEnded | src/server/worker/main.ts:127-140 | From a live row, the row is finished exactly when a result was handled or a due reaper write happened, however they interleave |
| CommandRow.FastResultIsLost | src/server/modules/commands/command.service.ts:189-192 | Before that update the property fails: a result that lands first is undone |
| CommandRow.StaleReapOverwritesSuccess | src/server/worker/main.ts:118-140 | A reaper that read before the result turns a success into TIMEOUT and keeps the output |
| CommandRow.LastResultStaysIff | src/server/worker/main.ts:118-140 | Until the next result or dispatch update, the row keeps the last handled result if and only if no reaper write past the deadline it read follows; otherwise it ends TIMEOUT |
| CommandRow.FinishedRowAfter | src/server/worker/main.ts:127-140 | A finished row stays exactly as it is, or becomes exactly that row expired, according to whether such a write follows |
| CommandRow.NeverDispatchedNeverReaped | src/server/worker/main.ts:118-123 | A row the dispatch update never reaches is never read by the reaper, whatever else happens to it |
| CommandRow.Worker.HandleResult | src/server/worker/handlers.ts:163-281 | Unknown, foreign or malformed messages change nothing; otherwise the row takes its step, a chunk is stored once per sequence number, and one event is published (field by field in ResultMeans and ProgressMeans) |
| CommandRow.Worker.Reap | src/server/worker/main.ts:90-152 | Outside the grace window and while connected, exactly the overdue rows among those the query returned become TIMEOUT, with one event each in the query's order; if the query returned fewer than 200, no due row is left |
| CommandService.Service.DispatchCommand | src/server/modules/commands/command.service.ts:36-201 | The exact refusal reason, or: every target is in exactly one of dispatched and skipped; rows are inserted PENDING, then the publishes that go out, then all rows of the batch DISPATCHED; if a publish is rejected the call fails and the rows stay PENDING. In the devices' fields: refused as "no matching devices" exactly if none is selected; each dispatched device is a selected online one of the fleet; each selected offline one is skipped |
| CommandService.Service.Send | src/server/modules/commands/command.service.ts:104-201 | The table and the effects after a dispatch that was not refused, whichever publishes are rejected |
| CommandService.Service.Publish | src/server/modules/commands/command.service.ts:149-187 | Publishes once to the group or once to each device, in order, only for commands whose row exists PENDING; tells whether a publish was rejected |
| CommandService.ConcludedEffects | src/server/modules/commands/command.service.ts:104-201 | With no publish rejected the effects are exactly: insert, publishes, update |
| CommandService.OnlineOffline | src/server/modules/commands/command.service.ts:57-64 | Online and offline split the targets without loss |
| CommandService.TargetIff | src/server/modules/commands/command.service.ts:43-64 | A device is a target exactly if it is in the fleet and its group is the one asked for, no device ids being given, or its id is listed; online and offline are told by its status; each counts as often as it occurs |
| CommandService.TargetsCons | src/server/modules/commands/command.service.ts:43-64 | Targets, online and offline keep the fleet's order |
| CommandService.RefusedIff | src/server/modules/commands/command.service.ts:54-100 | Each refusal exactly for its reason, in their order |
| CommandService.EffectsAre | src/server/modules/commands/command.service.ts:109-193 | Message by message: the rows of the batch's commands, one publish to the group or one to each device with its own command, the update |
| CommandService.RowsAre | src/server/modules/commands/command.service.ts:119-131 | The rows of a batch stand under their command ids for their devices, and no other row changes |
| CommandService.SentIff | src/server/modules/commands/command.service.ts:149-187 | Who is sent the command: the dispatched devices, or with the broadcast topic every group member |
| CommandService.SkippedNotSentIff | src/server/modules/commands/command.service.ts:149-160 | A skipped device is left alone exactly when it is not reached through the group topic |
| CommandService.MarkLemma | src/server/modules/commands/command.service.ts:189-192 | Marking the batch turns the inserted rows, and no others, into dispatched ones |
| EventStream.FoldShows | src/components/realtime/event-stream.tsx:88-165 | What the reducer holds for a command is a function of its chunk set, its last result and its fallback, whatever the order |
| EventStream.Confluence | src/components/realtime/event-stream.tsx:88-165 | Two arrival orders with the same chunks, last result and fallback end in the same run |
| EventStream.AnyOrderAnyDuplication | src/components/realtime/event-stream.tsx:88-165 | For one result, any two arrival orders with any duplication of the same events, in neither of which a result with output precedes an existing first chunk, end in the same finished run, with the result's status and, strictly sorted, exactly the chunks, or the result's output if there are none |
| EventStream.ShowsExpectedIff | src/components/realtime/event-stream.tsx:133-147 | A finished run shows those lines if and only if no result with output came before an existing first chunk, or that output consists of chunks |
| EventStream.FinishedIsLastResult | src/components/realtime/event-stream.tsx:148-165 | For all event sequences, chunk conflicts and several results included: a run is finished exactly if a result arrived, and carries the last one |
| EventStream.LiveRun | src/components/realtime/event-stream.tsx:96-132 | A run without a result is live, with the status of its last acknowledgement or "running", and exists exactly if something was acknowledged or streamed |
| EventStream.LastReportShown | src/components/realtime/event-stream.tsx:60-95 | Presence and metrics of a device are those of its last event |
| EventStream.FallbackMeans | src/components/realtime/event-stream.tsx:133-147 | Buffered output is shown as line 0 on standard output, then line 1 on standard error |
| EventStream.FirstChunk | src/components/realtime/event-stream.tsx:108-132 | A first chunk opens a running run with that one line |
| EventStream.LinesAreTheChunksIff | src/components/realtime/event-stream.tsx:133-147 | The shown lines are exactly the chunks if and only if the fallback consists of chunks |
| EventStream.OvertakingResultShadowsChunk | src/components/realtime/event-stream.tsx:136-147 | A result with output before the first chunk shadows chunk 0 |
| EventStream.FinishedStays | src/components/realtime/event-stream.tsx:88-109 | No event reopens a finished run |
| EventStream.SortedUnique | src/components/realtime/event-stream.tsx:125-129 | A strictly sorted list of lines is determined by its elements |
| CommandPath.TerminalStays | src/server/worker/handlers.ts:248-267 | With the agent in the loop and a network that duplicates and reorders, no step but the dispatch update reopens the row: the agent's terminal-only results are an invariant, not a hypothesis |
| CommandPath.FinishedTogether | src/server/worker/handlers.ts:248-280 | Over every schedule a browser never finishes a command whose row is live; once every handler is through and everything published has arrived, it has finished exactly the finished ones |
| CommandPath.RunTold | src/server/worker/handlers.ts:248-280 | Results issued to browsers and the end of the row stay consistent, although the row write and the publish are separate steps |
| CommandPath.RunTraced | src/server/worker/handlers.ts:248-280 | As long as no reaper writes past its deadline, a finished row stores a result the agent sent, and so does every result event |
| CommandPath.RowAndBrowserShowTheRun | agent/internal/dispatch/dispatcher.go:245-289 | If the id was queued at most once and never refused, and no reaper wrote past its deadline, then over every schedule of row writes, publishes and deliveries a finished row holds the outcome of its one run, and a browser that has finished it shows the row's status |
| CommandAgreement.ApartIff | src/server/worker/handlers.ts:248-280 | From a live row nobody was told about: some schedule of what is in flight, the reaper reading and writing at will, ends quiet with the browser showing another outcome than the row if and only if the sent results, and for a row that was dispatched or read the reaper's TIMEOUT, are not all the same |
| CommandAgreement.RunSaid | src/server/worker/handlers.ts:248-280 | Over every schedule, the agent running on as well: if all results sent by its end, and the reaper if it may take part, say the same, the browser agrees with the row |
| CommandAgreement.UndispatchedApartIff | src/server/modules/commands/command.service.ts:189-192 | While the dispatch update is still to come: some schedule with it ends apart if and only if any result was sent |
| CommandAgreement.TwoResultsApart | src/server/worker/main.ts:196-196 | The schedule: two different results handled in one order, published and shown in the other |
| CommandAgreement.StaleReapApart | src/server/worker/main.ts:118-152 | The same for a result and a reaper that read the row before it |
| CommandAgreement.ReadThenReapApart | src/server/worker/main.ts:118-152 | And for a reaper that reads the row only now |
| CommandAgreement.ChunksAgree | agent/internal/dispatch/dispatcher.go:219-232 | Over every run in which the id is queued at most once, chunk events of equal number are the same chunk: each comes from the one stream its run numbered |
| CommandAgreement.ConflictIff | agent/internal/dispatch/dispatcher.go:219-232 | For an id that ran more than once: some schedule shows two different chunks of one number if and only if two runs published such chunks |
| CommandAgreement.BrowserShowsTheOutput | src/components/realtime/event-stream.tsx:88-165 | End to end, a browser that has finished the command shows its run's result and, strictly in sequence, exactly the chunks it received or, without chunks, the result's output; with the exact exception of an overtaking result |
| CommandBounds.WithinBoundsRowAndBrowserAgree | agent/internal/dispatch/dispatcher.go:153-187 | End to end under the bounds of the agent's cache: from the first delivery of an id, while less than the ttl passes and at most capacity - 2 other ids are recorded, the command runs at most once, a finished row stores that run's result and a browser that has finished it shows the row's status |
| CommandBounds.RunsAgainIff | agent/internal/dedupe/cache.go:42-53 | The ttl bound is tight: a duplicate is executed again exactly if at least the ttl has passed |
| CommandBounds.StartMeets | src/server/modules/commands/command.service.ts:119-131 | A new agent and a live row nobody was told about meet the hypotheses of all these results |
| CommandPath.StatusTellsTheRun | agent/internal/dispatch/dispatcher.go:235-254 | The row says SUCCEEDED exactly for exit code 0 without timeout or cancel, and TIMEOUT, CANCELED and FAILED exactly for theirs, a failed spawn included |
| CommandOutcome.BrowserTellsTheRun | src/components/realtime/event-stream.tsx:133-165 | End to end in literal words: under one run and no late reaper write, a browser that has finished the command says "SUCCEEDED" exactly if the run ended with exit code 0, neither timed out nor canceled, "TIMEOUT", "CANCELED" and "FAILED" exactly for theirs, and shows its exit code |
| CommandOutcome.RowTellsTheRun | src/server/worker/handlers.ts:240-267 | The same for a finished row, with the run's output |
| CommandOutcome.WordsOf | src/server/worker/handlers.ts:269-299 | The words an outcome becomes |
| CommandOutcome.RunRuns | agent/internal/dispatch/dispatcher.go:188-279 | Over every schedule each finished run reported an outcome of a command, a ping or a fact collection |
| RateLimit.ExpiryTransparent | src/server/infrastructure/ratelimit/ratelimit.ts:19-31 | A bucket that may have expired is full again: missing and forgotten answer alike |
| RateLimit.LiveTransparent | src/server/infrastructure/ratelimit/ratelimit.ts:19-31 | So dropping expired keys is invisible to every later take |
| RateLimit.WaitIsLeast | src/server/infrastructure/ratelimit/ratelimit.ts:24-28 | Left alone, a retry k whole ms later is granted if and only if k is at least the returned wait |
| RateLimit.SpendThenRefill | src/server/infrastructure/ratelimit/ratelimit.ts:21-30 | A grant costs one token, and what is available later is at most what was left plus the refill |
| RateLimit.GrantsBounded | src/server/infrastructure/ratelimit/ratelimit.ts:17-32 | Grants in any monotone run are at most what is available plus the refill |
| RateLimit.RateIsBounded | src/server/infrastructure/ratelimit/ratelimit.ts:17-32 | In any interval of d ms at most cap + rate * d / 1000 grants, although idle keys expire |
| RateLimit.LimitsSound | src/server/infrastructure/ratelimit/ratelimit.ts:55-59 | Every positive per-minute limit yields capacities of at least one and positive rates |
| RateLimit.LimitsAre | src/server/infrastructure/ratelimit/ratelimit.ts:55-59 | In numbers: a user has the limit's tokens, filled up in a minute; a device the least whole number from a third of it, at least two, and a third of the rate, at least one in five seconds |
| RateLimit.VerdictMeans | src/server/infrastructure/ratelimit/ratelimit.ts:76-94 | A user who must wait gets nothing through; else exactly the devices that need not wait are let through and the others named with their waits |
| RateLimit.Partition | src/server/infrastructure/ratelimit/ratelimit.ts:83-87 | Each device is in exactly one of allowed and limited |
| RateLimit.LimitedIff | src/server/infrastructure/ratelimit/ratelimit.ts:83-87 | A device is limited, with its own wait, exactly if its wait is positive |
| RateLimit.DevicesLeaveUser | src/server/infrastructure/ratelimit/ratelimit.ts:34-38 | Device takes answer once per device and do not touch the user's bucket |
| RateLimit.UserCostIndependentOfTargets | src/server/infrastructure/ratelimit/ratelimit.ts:34-39 | The user's bucket and verdict after the script do not depend on how many devices are targeted |
| RateLimit.Limiter.CheckCommandRateLimit | src/server/infrastructure/ratelimit/ratelimit.ts:51-94 | The loops over devices in place equal one take per device and one for the user; unless the user is limited, no device is lost |
| DispatchRate.DispatchesBounded | src/server/infrastructure/ratelimit/ratelimit.ts:34-94 | From an empty store, after any earlier calls, in any interval of d ms the script lets through at most cap + rate * d / 1000 dispatches of one user and commands to one device, however calls, users and devices mix and repeat |
| DispatchRate.TakesBounded | src/server/infrastructure/ratelimit/ratelimit.ts:17-32 | The same for takes on any key among takes on all keys |
| DispatchRate.GrantsOnAre | src/server/infrastructure/ratelimit/ratelimit.ts:17-32 | Keys do not disturb each other: the grants on one are those of the bucket alone |
| DispatchRate.CallIsTakes | src/server/infrastructure/ratelimit/ratelimit.ts:34-39 | A call is one take per device and one for its user; it passes exactly if the user's is granted, and no more than the granted devices are let through |
| RateLimit.Limiter.Window | src/server/infrastructure/ratelimit/ratelimit.ts:104-118 | INCR, PEXPIRE and PTTL in sequence charge the window as specified |
| RateLimit.Limiter.Consume | src/server/infrastructure/ratelimit/ratelimit.ts:148-167 | Charges once, or fails closed with the whole window |
| RateLimit.Limiter.IsRateLimited | src/server/infrastructure/ratelimit/ratelimit.ts:126-137 | Reads without charging, and fails closed |
| RateLimit.Limiter.Reset | src/server/infrastructure/ratelimit/ratelimit.ts:140-146 | Clears that one counter |
| RateLimit.CheckAgreesWithChargeIff | src/server/infrastructure/ratelimit/ratelimit.ts:108-137 | The free check agrees with the charge that would follow if and only if the limit is at least one or a window exists (no caller passes a limit below one) |
| RateLimit.WindowRateBounded | src/server/infrastructure/ratelimit/ratelimit.ts:104-118 | Any interval shorter than the window sees at most twice the limit |
| RateLimit.OneWindowExact | src/server/infrastructure/ratelimit/ratelimit.ts:104-118 | Within one window exactly the first `limit` charges pass |
| RateLimit.ChargeMeans | src/server/infrastructure/ratelimit/ratelimit.ts:104-118 | The first charge fixes the window's end, each counts one, and a charge over the limit is told the time left |
| Base32.ShiftInKeeps | src/server/modules/auth/totp.ts:28-28 | The unmasked 32-bit accumulator keeps the pending bits through its wrap |
| Base32.PendingTop | src/server/modules/auth/totp.ts:31-31 | The shifted and masked field is the top of the pending bits |
| Base32.Encode | src/server/modules/auth/totp.ts:23-37 | The text's symbols carry exactly the bytes' bits, zero-padded to a symbol; its length is ceil(8n / 5) |
| Base32.EncodingUnique | src/server/modules/auth/totp.ts:23-37 | Given bytes have one such encoding |
| Base32.EncodingLength | src/server/modules/auth/totp.ts:23-37 | Any such encoding has ceil(8n / 5) symbols |
| Base32.DecodeClean | src/server/modules/auth/totp.ts:41-54 | Succeeds exactly on alphabet characters, yields the whole bytes of the symbols' bits, and otherwise names the first bad character |
| Base32.Decode | src/server/modules/auth/totp.ts:39-55 | The same after upper-casing, dropping trailing '=' and white space |
| Base32.CleanRestores | src/server/modules/auth/totp.ts:40-40 | Cleaning restores a canonical text from any casing and any amount of padding |
| Base32.AlphabetInverts | src/server/modules/auth/totp.ts:17-17 | The alphabet is A..Z then 2..7, so indexing inverts it |
| Base32.DecodeOfEncode | src/server/modules/auth/totp.ts:23-55 | The round trip on every byte sequence |
| Base32.EncodeOfDecodeIff | src/server/modules/auth/totp.ts:23-55 | Re-encoding restores a text exactly when fewer than five bits are left over and they are zero |
| Base32.RoundTrip | src/server/modules/auth/totp.ts:23-55 | base32Decode(base32Encode(b)) == b, also for lower case and padded text |
| SseFrames.FramesSplit | src/server/modules/ai/ai.service.ts:137-143 | Cutting the text anywhere changes neither frames nor leftover |
| SseFrames.FramesRejoin | src/server/modules/ai/ai.service.ts:141-143 | Frames and leftover rejoin to the text and the leftover holds no blank line |
| SseFrames.FramesUnique | src/server/modules/ai/ai.service.ts:141-143 | They are the only leftmost framing of the text, runs of three or more newlines included |
| SseFrames.Boundary | src/server/modules/ai/ai.service.ts:141-141 | The first position of a blank line, or -1 if there is none |
| SseFrames.FrameLines | src/server/modules/ai/ai.service.ts:145-171 | The loop over a frame's lines yields its data lines' deltas in order |
| SseFrames.LineYieldIs | src/server/modules/ai/ai.service.ts:145-167 | A line yields exactly if it begins with "data:" and carries a payload other than "[DONE]" whose text is not empty |
| SseFrames.Drain | src/server/modules/ai/ai.service.ts:141-172 | The inner loop takes every complete frame out of the buffer |
| SseFrames.StreamChat | src/server/modules/ai/ai.service.ts:131-173 | Any split of the text into reads yields the same pieces and leftover as one read |
| SseFrames.CarriageReturnsHideFrames | src/server/modules/ai/ai.service.ts:141-141 | Lines ended by CR LF never form a frame, an instance of the next |
| SseStandard.FramesMatchStandardIff | src/server/modules/ai/ai.service.ts:141-145 | The non-empty lines of the loop's frames are the blocks of section 9.2 of the WHATWG HTML standard, which also ends lines at CR and CR LF, if and only if no CR stands before the last LF LF of the text and after it no line is followed by an empty one |
| SseStandard.NewlinesOnlyMatch | src/server/modules/ai/ai.service.ts:141-145 | So for every text without CR, runs of three or more newlines included |
| SseStandard.ParseFrames | src/server/modules/ai/ai.service.ts:141-145 | Reading frames free of CR and then the leftover by the standard gives the loop's blocks and then the leftover's |
| SseStandard.ParseEmptyIff | src/server/modules/ai/ai.service.ts:141-141 | The standard finds a block exactly if somewhere a line with text is followed by an empty one |
| Schedules.NextIsLeast | src/server/modules/schedules/schedule.service.ts:25-36 | The next instant is the least match strictly after its argument |
| Schedules.StepsMean | src/server/modules/schedules/schedule.service.ts:128-212 | A query reads a due instant of an active schedule; the compare-and-set moves it to the next instant after the pass's clock exactly if it is unchanged; a pause clears it; a resume writes what was computed from the clock |
| Schedules.EachSlotClaimedOnce | src/server/modules/schedules/schedule.service.ts:192-212 | Over any number of racing workers, pauses and resumes, in every run in which a resume writes an instant later than all claimed so far, each occurrence is claimed at most once and claims come in increasing order |
| Schedules.RepeatsIff | src/server/modules/schedules/schedule.service.ts:139-147 | Exactly then: when a computed resume is written, some continuation without another resume claims an occurrence twice if and only if an instant no earlier than the written one was claimed before |
| Schedules.RunBase | src/server/modules/schedules/schedule.service.ts:128-212 | Over all runs without exception: claims take due instants and everything stored is an instant after the creation |
| Schedules.ClaimSawNoWrite | src/server/modules/schedules/schedule.service.ts:208-212 | In every run in which a resume writes an instant later than all that workers still hold, a compare-and-set succeeds exactly when no claim, pause or resume fell between its read and itself, although it compares only the value |
| Schedules.StaleSuccessIff | src/server/modules/schedules/schedule.service.ts:208-212 | Exactly then: some continuation lets a compare-and-set succeed on a row written since its read if and only if a worker holds an instant no earlier than the resumed one |
| Schedules.RunChained | src/server/modules/schedules/schedule.service.ts:192-212 | In every run in which a resume writes an instant later than all claiming passes' clocks, each claim takes an instant after the previous pass: missed occurrences are not replayed |
| Schedules.ReplayedIff | src/server/modules/schedules/schedule.service.ts:190-212 | Exactly then: some continuation replays an occurrence an earlier pass had skipped if and only if the resumed instant is no later than some claiming pass's clock |
| Schedules.ClaimsBounded | src/server/modules/schedules/schedule.service.ts:192-212 | In such runs there are never more claims than cron instants since the creation |
| Schedules.LateResumeReclaims | src/server/modules/schedules/schedule.service.ts:139-147 | Whenever a resume lands no later than a claimed instant, passes from there on claim that instant again |
| Schedules.LateResumeRun | src/server/modules/schedules/schedule.service.ts:139-147 | A run from creation in which that happens |
| Schedules.ScheduleTable.RunDueSchedules | src/server/modules/schedules/schedule.service.ts:196-271 | An undisturbed pass claims each due schedule once, touches no other, counts the successful dispatches, and leaves none due |
| Schedules.RanMeans | src/server/modules/schedules/schedule.service.ts:208-262 | A schedule that ran gets its next instant and the time of the run, and counts it exactly if it was dispatched; it is due exactly if active with an instant not after now |
| Schedules.CountOkIs | src/server/modules/schedules/schedule.service.ts:243-271 | The count of a pass is the number of schedules dispatched |
| Schedules.ScheduleTable.Claim | src/server/modules/schedules/schedule.service.ts:208-212 | Succeeds exactly when nextRunAt is still what was read |
| Schedules.ScheduleTable.SetScheduleStatus | src/server/modules/schedules/schedule.service.ts:134-147 | Pausing clears the next run; resuming aims at the next instant after now |
| Alerts.StartIsMaximal | src/server/modules/alerts/alert.service.ts:391-393 | The breached suffix the state refers to is the maximal one, and unique |
| Alerts.RowDescribesHistory | src/server/modules/alerts/alert.service.ts:384-434 | After any readings in clock order the row exists iff something breached, is FIRING iff the maximal breached suffix has lasted the dwell, `since` is that suffix's start, the last value is the last reading's, and the two dates are those of the last fire and the resolve after it |
| Alerts.StepDescribes | src/server/modules/alerts/alert.service.ts:391-433 | Each reading keeps that and notifies exactly when the alarm changes |
| Alerts.NotifiesExactly | src/server/modules/alerts/alert.service.ts:394-432 | Fires exactly where a breach first completes its dwell; resolves exactly at the first healthy reading after one that did |
| Alerts.Alternate | src/server/modules/alerts/alert.service.ts:394-432 | Fire and resolve strictly alternate |
| Alerts.OneFirePerStretch | src/server/modules/alerts/alert.service.ts:394-420 | One fire per breached stretch |
| Alerts.AlarmedWasFired | src/server/modules/alerts/alert.service.ts:394-420 | Every stretch that lasted its dwell fired within itself |
| Alerts.FirstIsFire | src/server/modules/alerts/alert.service.ts:421-433 | A resolve is always preceded by a fire |
| Alerts.CleanSlateIff | src/server/modules/alerts/alert.service.ts:118-122 | After a disable, readings taken from the deleted row on leave no row exactly if none of them breached |
| Alerts.RecordedAt | src/server/modules/alerts/alert.service.ts:353-384 | In a pass each device contributes one reading and no other key is touched |
| Alerts.NoticeMeans | src/server/modules/alerts/alert.service.ts:412-432 | A notice names its rule and device, what happened and when |
| Alerts.BreachedIff | src/server/modules/alerts/alert.service.ts:355-382 | A reading is breached exactly if an OFFLINE rule meets a device that is not online, or the CPU, memory or disk figure its rule names is at or above the threshold; without a sample nothing is |
| Alerts.FiringIff | src/server/modules/alerts/alert.service.ts:386-420 | After any readings of a device the alert is firing exactly if from some moment on every one was in breach and forMinutes minutes lie between the first and the last of these |
| Alerts.BreachedPass | src/server/modules/alerts/alert.service.ts:386-409 | In a pass, a device in breach gets or keeps the start of its stretch, and its alert is firing afterwards exactly if that is forMinutes minutes ago or it was firing |
| Alerts.HealthyRule | src/server/modules/alerts/alert.service.ts:421-433 | A rule's pass over devices with figures below the threshold, or online, fires nothing and creates no row |
| Alerts.OneDevicePass | src/server/modules/alerts/alert.service.ts:384-434 | Each device's row takes exactly one step in a pass |
| Alerts.AlertBook.RowsAreHistory | src/server/modules/alerts/alert.service.ts:339-438 | In every reachable table each row is what its rule's readings since the last disable call for |
| Alerts.AlertBook.TakeReading | src/server/modules/alerts/alert.service.ts:384-433 | One device's row takes its step and its notice is sent |
| Alerts.AlertBook.EvaluateRule | src/server/modules/alerts/alert.service.ts:343-435 | One rule's loop over devices in place equals its specification and keeps rows equal to history |
| Alerts.AlertBook.EvaluateAlerts | src/server/modules/alerts/alert.service.ts:339-438 | The loop over enabled rules does that for each in turn; the count is the number of fires sent; over devices that give no rule a reason it fires nothing and creates no row |
| Alerts.AlertBook.SetRuleEnabled | src/server/modules/alerts/alert.service.ts:103-122 | Disabling forgets that rule's rows and no others |
| AlertRaces.PutIsStepIff | src/server/modules/alerts/alert.service.ts:377-433 | A write decided on an earlier look has the row and the notice of the reading taken at once if and only if what was found decides as what is there would: the same start of the stretch and the same state |
| AlertRaces.InSyncIff | src/server/modules/alerts/alert.service.ts:377-433 | Over every interleaving of looks, writes and deletions of a row: row and notices are throughout those of the readings stored since the last deletion if and only if every write found such a row |
| AlertRaces.FreshRowDescribes | src/server/modules/alerts/alert.service.ts:384-434 | So when nothing is written between a look and its write, the row describes those readings as above |
| AlertRaces.ClearedIff | src/server/modules/alerts/alert.service.ts:118-122 | From a deleted row on, whatever earlier and later looks are written, a row exists exactly if one of the writes was of a breached reading |
| AlertRaces.OldStretchSurvivesIff | src/server/modules/alerts/alert.service.ts:118-122 | A breached reading looked up before a disable and written after it creates a row that starts where the old stretch did and fires at once if that lasted its dwell; it is a clean start exactly if the old stretch starts with this reading |
| AlertRaces.EachNotifiesAlone | src/server/modules/alerts/alert.service.ts:377-433 | Over every interleaving of any number of passes until the next deletion, each write notifies what its reading calls for on the row its look found |
| AlertRaces.NotifiedTwiceIff | src/server/modules/alerts/alert.service.ts:386-432 | So any two writes of a run both fire, or both resolve, exactly when the rows they found were both due, whatever was written in between |
| Retention.RunExact | src/server/modules/devices/retention.service.ts:37-77 | With hour-aligned raw cutoffs, over any interleaving of passes and samples, every hourly row is the aggregate (count, averages, maxima) of all samples ever recorded in its hour |
| Retention.RollUpCompletes | src/server/modules/devices/retention.service.ts:37-61 | So a roll-up leaves each unpruned, finished, sampled bucket with its exact row, the first included |
| Retention.RunBounded | src/server/modules/devices/retention.service.ts:37-77 | For any cutoffs no count or maximum is overstated and no sample is gone without its bucket having been written, the bucket a run starts in included |
| Retention.DeletedWasWritten | src/server/modules/devices/retention.service.ts:65-73 | A raw row is deleted exactly if it is older than the cutoff and its bucket has a row |
| Retention.SpoiledIffStraddled | src/server/modules/devices/retention.service.ts:37-73 | From an exact bucket, delete and next roll-up leave an exact row if and only if the cutoff did not fall between two of its raw samples |
| Retention.AlwaysTrueIff | src/server/modules/devices/retention.service.ts:37-77 | Whatever the cutoffs, over every interleaving: a bucket's row is throughout the aggregate of all samples ever recorded in its hour if and only if no roll-up comes while the bucket is partial |
| Retention.PartialIff | src/server/modules/devices/retention.service.ts:65-73 | A bucket becomes partial exactly when a delete with its row there cuts between its raw samples, and stops being so exactly when one takes the rest |
| Retention.CutoffAlignedIff | src/server/modules/devices/retention.service.ts:28-30 | The cutoff a pass computes is aligned exactly when the pass starts on the hour |
| Retention.DefaultsLoseSamples | src/server/modules/devices/retention.service.ts:28-73 | With 48 hours, a pass at half past and the next one halve the count of a two-sample hour |
| Retention.TwoSamplesReachable | src/server/modules/devices/retention.service.ts:28-61 | The state that run starts from is reachable |
| Retention.MaxIsGreatest | src/server/modules/devices/retention.service.ts:44-46 | The maximum is attained and bounds every sample |
| Retention.RolledUpAt | src/server/modules/devices/retention.service.ts:37-61 | The upsert replaces exactly the rows of finished buckets with raw samples |
| Retention.PassKeepsIff | src/server/modules/devices/retention.service.ts:28-73 | Sample by sample, in numbers: a raw row stays exactly if it is younger than the hours kept or its hour has no row and is not over |
| Retention.PassRowIff | src/server/modules/devices/retention.service.ts:37-77 | Hour by hour: an hour that is over and has raw rows gets their aggregate, another keeps its row, and rows of hours that began before the days kept go |
| Retention.AveragesMean | src/server/modules/devices/retention.service.ts:41-46 | A row counts its samples, and each average times the count is their sum |
| Retention.MaximaMean | src/server/modules/devices/retention.service.ts:44-46 | Each maximum is reached by a sample and exceeded by none |
| Retention.BucketMeans | src/server/modules/devices/retention.service.ts:37-49 | A sample belongs to the hour it falls in, which is over when its end has passed |
| Retention.PassIsSteps | src/server/modules/devices/retention.service.ts:27-77 | A pass is its three statements in a row, so results about runs hold of passes |
| Retention.MetricTables.RunMetricRetention | src/server/modules/devices/retention.service.ts:27-89 | Rolls up, deletes and prunes in place with the cutoffs of its clock, and counts each |
| TeamInvariant.StepInv | src/server/modules/teams/team.service.ts:45-650 | Every operation that nothing overlaps, allowed or refused, keeps: role names unique per team; each team's Owner role with rank 100 and all permissions held by its creator alone; members and invites hold roles of their own team; active teams are teams one belongs to; pending invites never belong to a member |
| TeamInvariant.RunInv | src/server/modules/teams/team.service.ts:45-650 | So over all runs of such operations |
| TeamInvariant.OneOwnerAlways | src/server/modules/teams/team.service.ts:183-376 | From an empty store each team always has exactly one Owner, its creator, who outranks everybody else |
| TeamInvariant.ExactlyOneOwner | src/server/modules/teams/team.service.ts:363-376 | The owners of a team are its creator alone, with rank 100 and every permission; every other role ranks below |
| TeamInvariant.OnlyCreatorIsLast | src/server/modules/teams/team.service.ts:363-376 | ensureNotLastOwner refuses exactly for the creator |
| TeamPermissions.CreateRoleIff | src/app/_actions/teams.ts:127-150 | Forbidden exactly without a role in the team that grants "team:manage_roles"; done exactly if also the rank is 1 to 99 and below the actor's, the permissions are known and the name is there and free; then exactly that role is added |
| TeamPermissions.UpdateRoleIff | src/server/modules/teams/team.service.ts:183-240 | Likewise; a system role keeps name and rank, the Owner role its permissions; exactly that role is rewritten |
| TeamPermissions.DeleteRoleIff | src/server/modules/teams/team.service.ts:242-274 | Likewise, for a junior, unused role that is no system role; its invites go with it |
| TeamPermissions.ChangeMemberRoleIff | src/server/modules/teams/team.service.ts:278-324 | Forbidden exactly without "team:manage_members"; done exactly for another, junior member and a junior role, unless the last Owner would go |
| TeamPermissions.RemoveMemberIff | src/server/modules/teams/team.service.ts:326-360 | Likewise for oneself or a junior member; seat and active team go, nothing else |
| TeamPermissions.LeaveTeamIff | src/server/modules/teams/team.service.ts:613-639 | A member other than the last Owner may leave a team that is not personal |
| TeamPermissions.InviteMemberIff | src/server/modules/teams/team.service.ts:384-441 | Forbidden exactly without "team:manage_members"; done exactly for a junior role and an address of no member; the invite runs seven days |
| TeamPermissions.RevokeInviteIff | src/server/modules/teams/team.service.ts:451-475 | Forbidden exactly without "team:manage_members"; exactly that invite is marked |
| TeamPermissions.AcceptIff | src/server/modules/teams/team.service.ts:477-521 | Done exactly for an unused, unrevoked, unexpired invite sent to the user's address |
| TeamPermissions.DeleteTeamIff | src/app/_actions/teams.ts:258-258 | Done exactly with a role in the team that grants "team:manage_settings", for a team that is not personal, once the broker is revoked; exactly what belongs to the team goes |
| TeamPermissions.TeamGoneBy | src/app/_actions/teams.ts:258-258 | Over runs: a team that goes was deleted by somebody who then held "team:manage_settings" in it, and it was not personal |
| TeamPermissions.TeamOutlivesUnentitled | src/app/_actions/teams.ts:258-258 | So members without it never remove their team |
| TeamPermissions.SeededRolesAre | src/server/modules/teams/permissions.ts:155-191 | The thirteen permissions and the four seeded roles, permission by permission |
| TeamPermissions.LastIff | src/server/modules/teams/team.service.ts:363-376 | The count of owners is one exactly if nobody else holds a role named Owner |
| TeamInvariant.SeededRolesFit | src/server/modules/teams/permissions.ts:155-191 | The seeded roles have distinct names and only Owner ranks 100 |
| TeamInvariant.TeamKeeps | src/server/modules/teams/team.service.ts:45-92 | Creating a team keeps the invariant |
| TeamInvariant.CreateRoleKeeps | src/app/_actions/teams.ts:138-141 | The rank guard in the action and the name check keep any second Owner out |
| TeamInvariant.UpdateRoleKeeps | src/server/modules/teams/team.service.ts:183-240 | Renaming or re-ranking can neither make nor break an Owner |
| TeamInvariant.DeleteRoleKeeps | src/server/modules/teams/team.service.ts:242-274 | No member is left without a role, and the role's invites go with it |
| TeamInvariant.ChangeMemberRoleKeeps | src/server/modules/teams/team.service.ts:278-324 | Role changes keep the invariant |
| TeamInvariant.DepartureKeeps | src/server/modules/teams/team.service.ts:326-360 | Removal and leaving never take the Owner, and clear the active team |
| TeamInvariant.InviteMemberKeeps | src/server/modules/teams/team.service.ts:384-441 | Invites go only to addresses of non-members and never carry the Owner role |
| TeamInvariant.AcceptIsAlwaysNew | src/server/modules/teams/team.service.ts:494-499 | Undisturbed, the update arm of the membership upsert is never taken |
| TeamInvariant.AcceptKeeps | src/server/modules/teams/team.service.ts:477-521 | Accepting keeps the invariant |
| TeamInvariant.TeamGoneKeeps | src/server/modules/teams/team.service.ts:599-603 | Deleting a team leaves no dangling role, member, invite or active team |
| TeamInvariant.StepKeepsSystem | src/server/modules/teams/team.service.ts:206-213 | No operation renames, re-ranks or deletes a system role while its team exists, or deletes a personal team |
| TeamInvariant.PersonalTeamsStay | src/server/modules/teams/team.service.ts:564-566 | So a personal team survives every run |
| TeamInvariant.TokenWorksOnce | src/server/modules/teams/team.service.ts:477-503 | Once accepted, a token admits nobody again over any run of such operations that does not issue it anew |
| TeamInvariant.RevokedTokenIsDead | src/server/modules/teams/team.service.ts:451-484 | Nor does a revoked one |
| TeamRank.SeniorsFrozen | src/server/modules/teams/team.service.ts:196-304 | If everyone acting in a team ranks below R, no pending invite carries a role at R or above and the team is not deleted, then over any run no role at R or above is edited, deleted or created and nobody gains or loses one |
| TeamRank.StepFrozen | src/server/modules/teams/team.service.ts:196-304 | The same for one operation |
| TeamRank.AcceptFreezes | src/server/modules/teams/team.service.ts:477-521 | Accepting an invite never moves anyone to or from a senior role |
| TeamRaces.OneOwnerUnderRaces | src/server/modules/teams/team.service.ts:45-650 | Though the checks and the writes of all operations interleave in any way, each team always has exactly one Owner, its creator, with rank 100 and every permission, and everybody else ranks below |
| TeamRaces.RunSound | src/server/modules/teams/team.service.ts:45-650 | Over all such interleavings: names unique, Owner roles, members and invites fitting their team, and no pending write that could break this |
| TeamRaces.BeginSound | src/server/modules/teams/team.service.ts:183-441 | What the checks of an operation see is enough for its write to be harmless to these |
| TeamRaces.CommitSound | src/server/modules/teams/team.service.ts:183-521 | A write lands safely however stale its checks, given the database's own constraints |
| TeamRaces.WriteOkStays | src/server/modules/teams/team.service.ts:183-521 | No write makes another pending one dangerous |
| TeamRaces.UndisturbedIsAtomic | src/server/modules/teams/team.service.ts:45-650 | An operation that nothing overlaps is the one-step operation with the same outcome |
| TeamRaceEffects.SeniorsFrozenUnderRaces | src/server/modules/teams/team.service.ts:196-304 | Under the same interleavings: if everyone who starts an operation in a team ranks below R when it is checked, no role at R or above is edited, deleted or created and nobody gains or loses one |
| TeamRaceEffects.SpentTokenPassesNoCheck | src/server/modules/teams/team.service.ts:477-484 | Once a token is used or revoked, and no write under way issues it, it passes the checks of no later accept over any interleaving |
| TeamRaceEffects.BothAcceptsJoin | src/server/modules/teams/team.service.ts:477-503 | Two accepts of one token that both passed the checks both commit, the second changing nothing |
| TeamInvites.AlwaysCleanIff | src/server/modules/teams/team.service.ts:384-441 | Over any interleaving, throughout: no invite is pending for a member, and every accept under way is by the invited address, if and only if every invitation is written while nobody at its address is a member |
| TeamInvites.AcceptSeesFreeSeat | src/server/modules/teams/team.service.ts:477-489 | In such states nobody passes the checks of an accept who is a member already |
| TeamInvites.JoinOverwritesIff | src/server/modules/teams/team.service.ts:494-499 | After any such interleaving, an accept whose checks passed takes the update arm if and only if another accept by the same user into the team was written since those checks and nothing has freed the seat again |
| TeamInvites.MemberMayAcceptIff | src/server/modules/teams/team.service.ts:477-489 | A member can pass the checks of an accept if and only if an invite is pending for a member |
| TeamInvites.LateInviteOverwrites | src/server/modules/teams/team.service.ts:398-427 | From any state: an invitation checked before its addressee joins and written afterwards is accepted by the member, whose role the update arm replaces although nobody joined since the checks |
| TeamRaceEffects.SwitchKeepsActiveIff | src/server/modules/teams/team.service.ts:641-650 | Whoever is left on a team they do not belong to has the clearing statement of their removal still to come; a switch breaks this exactly if the membership ended since its check and that statement is through |
| TeamRaceEffects.OthersKeepActive | src/server/modules/teams/team.service.ts:45-639 | No other write of any operation breaks it, the first statement of a removal included |
| TeamRaceEffects.ActiveOkWhenQuiet | src/server/modules/teams/team.service.ts:343-650 | So over any interleaving in which no switch comes so late, once all writes are through every active team is one its user belongs to |
| TeamStore.Store.EnsureNotLastOwner | src/server/modules/teams/team.service.ts:363-376 | Counts the members holding a role named Owner |
| TeamStore.Store.FindInvite | src/server/modules/teams/team.service.ts:477-482 | Finds the invite a token names |
| TeamStore.Store.CreateTeam | src/server/modules/teams/team.service.ts:45-92 | Seeds the four roles and makes the creator Owner, or refuses and changes nothing |
| TeamStore.Store.CreateRole | src/server/modules/teams/team.service.ts:147-181 | Creates the role as specified, or refuses with the first reason that applies and changes nothing |
| TeamStore.Store.UpdateRole | src/server/modules/teams/team.service.ts:183-240 | Updates the role as specified, or refuses likewise |
| TeamStore.Store.DeleteRole | src/server/modules/teams/team.service.ts:242-274 | Deletes the role and its invites, or refuses likewise |
| TeamStore.Store.ChangeMemberRole | src/server/modules/teams/team.service.ts:278-324 | Moves the member, or refuses likewise |
| TeamStore.Store.RemoveMember | src/server/modules/teams/team.service.ts:326-360 | Removes the member and clears their active team, or refuses likewise |
| TeamStore.Store.InviteMember | src/server/modules/teams/team.service.ts:384-441 | Creates or renews the invite at the normalised address, or refuses likewise |
| TeamStore.Store.RevokeInvite | src/server/modules/teams/team.service.ts:451-475 | Marks the invite revoked, or refuses likewise |
| TeamStore.Store.AcceptInvite | src/server/modules/teams/team.service.ts:477-521 | Joins, uses the invite up and switches team in one transaction, or refuses likewise |
| TeamStore.Store.LeaveTeam | src/server/modules/teams/team.service.ts:613-639 | Leaves and clears the active team, or refuses likewise |
| TeamStore.Store.DeleteTeam | src/server/modules/teams/team.service.ts:558-610 | Deletes the team and all that belongs to it, or refuses likewise |
| TeamStore.Store.SwitchActiveTeam | src/server/modules/teams/team.service.ts:641-650 | Switches to a team one belongs to, or refuses likewise |
| TeamStore.Store.EnsurePersonalTeam | src/server/modules/teams/team.service.ts:95-110 | Creates a personal team exactly for a user who has none |
| TeamStore.Store.Perform | src/server/modules/teams/team.service.ts:45-650 | Any operation on the tables takes the model's step and keeps the invariant |

## Left out

- Dispatcher.RunInv: shutdown is not modelled; the context that stops the workers never ends.
- Dispatcher.ResultsAgree: a message counts as sent in the step that decides on it, so the moment between storing a result (or queueing a job) and publishing it is not a state of its own; the network delivers it at any later time.
- Dispatcher.DuplicateGetsTheResult: the JSON round trip of a cached result is taken to be faithful.
- Dispatcher.WorkIsRunnable: the name-based UUID of a broadcast id is an arbitrary function; its injectivity is not claimed.
- CommandPath.RowAndBrowserShowTheRun: reaper writes past their deadline are excluded, because such a write does end the row otherwise (`CommandRow.LastResultStaysIff`, `CommandAgreement.ApartIff`).
- CommandPath.RunTraced: an output stream may emit for a command that asked for none, so the theorems cover more behaviours than the code has.
- CommandRow.Worker.Reap: the query orders nothing, so with 200 or more candidate rows some due ones may wait for a later pass, and nothing bounds how long.
- RateLimit.RateIsBounded: token counts are reals; rounding in Redis is not modelled, and a key lives while now is before its expiry by the same clock that stamps it.
- RateLimit.Limiter.CheckCommandRateLimit: an evaluation error of the script is not modelled.
- Base32.Decode: upper-casing is that of ASCII letters, so inputs with a longer or foreign upper case differ; white space is JavaScript's.
- SseFrames.StreamChat: starts from the decoded text; the byte decoder and JSON parsing are an arbitrary function from a data line to what it yields.
- SseStandard.FramesMatchStandardIff: compares the lines of each block; the standard then joins several data lines of one block into one event, while the loop reads each data line by itself.
- Schedules.NextIsLeast: the cron library is an arbitrary set of instants of which the least one after t is chosen.
- Schedules.ScheduleTable.RunDueSchedules: run bookkeeping is reduced to the last run, its outcome and the run count.
- AlertRaces.InSyncIff: an update that finds its row gone ends the pass in the code; here later looks may still follow, so more behaviours are covered.
- Retention.RunExact: samples are stamped by one monotone clock and are visible to every later statement; averages are over reals.
- TeamInvariant.StepInv: a member is named by team and user instead of a row id, and an invite by team and address; overlapping operations are in `TeamRaces.dfy`.
- TeamRaces.BeginSound: the reads and checks of one operation are one block; writes that land between two of its reads are not modelled.
- Teams.Normalise: lower-casing is that of ASCII letters.
- TeamRank.SeniorsFrozen: deleting the whole team is governed by a permission and not by rank, so runs that delete it are excluded.
- TeamStore.Store.CreateTeam: names and slugs of teams, renaming, role descriptions and audit entries are not kept.
- TeamStore.Store.DeleteTeam: revoking broker credentials is a parameter that says whether it succeeded.
- Starting a process, its pipes and its signals: a run ends with an arbitrary outcome.
- Presence fencing and the retained status document: one branch settles them at the worker.
- Prisma, Redis, MQTT and HTTP clients, TLS, broker access rules, installation scripts: only their row, key and message effects appear.
- HMAC, password hashing, random generation, one-time-code windows: lookups once the hash is abstract.
- Outbound request filtering, webhook and Telegram delivery: address tables and network calls.
- Extraction of proposed commands, prompt building, audit texts, labels, pages and other components.
