# Klew: event history, evidence, log following and scopes

Klew is a desktop client for Kubernetes. It records the events of clusters in a local database, so that they outlast the
API server, and tells precisely which periods were recorded. This project models the stateful and algebraic cores of the
program in Dafny and proves what they promise.

| Files | Part of the program |
|---|---|
| `Sessions`, `CoverageRanges`, `CoverageFold`, `CoverageReport` | The interval algebra of coverage: crediting, merging, clipping, gaps |
| `CoverageStore`, `CoverageWindow`, `CoverageQueries`, `LateRows`, `CoverageLabels`, `PrunedPasses`, `CoveragePrune`, `LatestReasons`, `CoverageReasons`, `GapLabels` | The coverage table, the windowed query, pruning, and exactly when neither changes the answers |
| `RecorderSteps`, `RecorderRuns`, `RecorderLabels`, `RecorderOrigins`, `ClosedRows`, `HonestCoverage`, `CompleteCoverage` | The coverage heartbeat of a recorder, its runs, why each row says what it says, and what reports mean end to end |
| `EventStore`, `EventFields`, `EventWriter`, `WriterRuns`, `WriterTiming`, `WriterLoss` | The upsert field by field, the coalescing writer, what the database holds after any run, and when it is written |
| `RingBuffer`, `EvidenceRuns`, `EvidenceNames`, `EvidenceFilters`, `EvidenceOrder` | The bounded evidence buffer, its runs, and what it keeps, by what evidence is about |
| `LogFollow`, `FollowRuns`, `FollowSync` | The log-follow scheduler, its runs, and what a sync and a reconcile leave |
| `ClusterKeys`, `RecorderOwnership`, `Manager` | Cluster keys, exclusive recording across processes, and one process's manager |
| `InvestigationScope`, `ObjectIndex`, `ScopeGrowth`, `OwnedLinks`, `ScopeLinks`, `ScopeAnchors`, `ScopeTies`, `OwnerTree`, `ScopeConnection`, `ScopeBuilder` | The relationship scope of an investigation |
| `HelmValues` | The user-supplied part of Helm values |
| `EventDedupe`, `DedupeFacts` | Event deduplication |
| `ShellQuote` | Shell quoting and the terminal's start script |
| `Options`, `BarText` | Optional values, and keys that are joined with bars |

`dafny verify dfyconfig.toml` checks everything.

## How it is built

What the program does by changing things step by step is a class or a method with loops, and its contract equates the new
state with a function of the old one. The properties are then proved about these functions: over every input, or over
every run of a step machine whose steps are those functions. The main results:

- `HonestCoverage.CoverageIsHonest` and `CompleteCoverage.RecordedIsReported`: what is reported covered was observed or
  legitimately credited, in every run with crashes, failed writes, clears, prunes and other clusters' rows in the same
  table; and nothing recorded is left out.
- `RecorderLabels.LabelsHaveCauses`, `RecorderOrigins.NothingIsForgotten` and `ClosedRows.ClosedRowsNeverChange`: why a row
  has the label, scope, start and mark that it has, told from the events of a run alone; `GapLabels.GapsNameTheirRow` says
  which row labels a reported gap.
- `CoverageQueries.WindowedQueryPreservesMeaning` and `CoveragePrune.PruneIsInvisible`: leaving rows out of the query, and
  deleting old rows, does not change the answers; `LateRows.LateRowsReachIn`, `CoverageLabels.QueryKeepsLabelsIff` and
  `CoverageReasons.PruneKeepsReasonsIff` say exactly when ranges, labels and reasons stay too.
- `CoverageReport.ReportTilesWindow` and `CoverageRanges.MergeIsComponents`: what the ranges and gaps are.
- `WriterRuns.ResumePointNeverAhead` and `WriterRuns.BatcherRefinesRowByRow`: the durable writer loses nothing;
  `EventFields.BatchFields` says what is stored, field by field.
- `EvidenceNames.SubjectsNeverLost`: evidence about a subject is kept, once and with its totals, while it fits; and
  `EvidenceOrder.SeveritiesAreConserved` accounts for the rest.
- `FollowRuns.LeavesForAReason`, `FollowRuns.DrainsCompletely` and `FollowSync.Reconciled`: the log-follow scheduler.
- `RecorderOwnership.OneRecorderPerCluster`: exclusive recording, over all interleavings of all processes, of whose steps
  every call of `Manager.Manager` is a run.
- `ScopeBuilder.BuildScope`: an investigation scope is closed, has exactly the root's pods, and is connected exactly when
  the root has a pod or nothing in the data parts it from what its labels select; by `ScopeLinks.SurroundingsAreExplained`
  and `ScopeLinks.SurroundingsAreRecorded`, the data calls for each relationship, and none that it calls for is missing.
- `HelmValues.DiffPreservesMeaning`, `DedupeFacts.OutputStandsForInput` and `ShellQuote.BuildUnixInitScript`.

## Modelling choices

- Times are integer milliseconds. The zero time is its own constant, distinct from the epoch; the database stores both as
  zero, and reads zero back as the zero time, as the program does.
- `ORDER BY started_at` is a stable sort: rows that start together keep their insertion order.
- Each call of the coverage heartbeat is one atomic step on the recorder and the table, under a clock that never runs
  backwards. The program makes its store write between two sections under the lock. A failed write changes nothing.
- The event TTL is a parameter everywhere. `GAP_TOLERANCE` is the program's two minutes.
- Fingerprints are the text that the program hashes, tagged with the source; SHA-1 is taken as injective. Message
  normalisation and time formatting are parameters. An event arrives with its own fingerprint or without one. Where parts
  are joined with bars, as in fingerprints and content keys, the parts before the last are taken to have none.
- The lock table is keyed by cluster key: the hash in the lock file's name is taken as injective.
- Each call of `Manager.Manager` is proved to be a run of the steps of `RecorderOwnership`, from the world as it is to the
  world that it leaves, with nothing of other threads in between. That the steps of other threads may come in between is
  what the theorems over all runs of `RecorderOwnership` are about, and `RecorderOwnership.OthersDoNotDisturb` says that
  they never make an instruction of a thread impossible, except for the acquisition of a lock.
- Log-follow operations are steps under the mutex; a stream's completion is a step of its own. Kubernetes names contain no
  slash, which is what `LogFollow.PrefixFindsPod` asks for.
- Helm numbers are integers or finite reals; a real that holds a 64-bit integer counts as that integer.
- Ownership between objects is by kind and name, as in the program, and is taken to be acyclic: the program does not
  terminate otherwise. Names may be empty; resources without a name are never recorded in a scope.
- Text is a sequence of characters; trimming removes ASCII white space.
- The literal formats of the start script are parameters: any non-empty text without single quotes.

## Where the code promises less than it seems to

- A window whose end is before its start makes `clipSessions` return a range that runs backwards, exactly when a range
  covers the window (`CoverageReport.ClipForwardIff`, `CoverageQueries.QueryForwardIff`); the window theorems ask for
  `since <= until`.
- The windowed query can report another scope or backfilled flag for a range than the whole table would
  (`CoverageQueries.WindowMayHideFlags`): exactly when the rows that it leaves out decide them
  (`CoverageLabels.QueryKeepsLabelsIff`). Ranges, gaps, reasons and Since agree under the conditions stated.
- Pruning a table whose rows are not in start order can change the reason of a gap
  (`CoverageReasons.PruneMayChangeReason`, `CoverageReasons.PruneKeepsReasonsIff`). The tables that recorders write are in
  start order (`CoverageReasons.RecordedReasonsSurvive`).
- Upserts never change the namespace and the regarding object of a stored event. Coalescing is therefore the same as
  row-by-row upserting if and only if the event is stored already or these fields did not change
  (`EventStore.CoalescingIsSafe`).
- The comment on `WriteBatch` says that a resume point is never ahead of the events it covers. That holds until the writer
  drops a backlog above its limit (`WriterRuns.DroppedRowsAreLost`, and a whole run in `WriterLoss.BacklogIsLost`).
- Without a pod, a service, disruption budget or network policy that matches the root's labels enters the scope, and no
  pod links it to the root. Endpoints, an ingress or an event that refer to it join it, and stay unconnected with it,
  unless something ties them to the root: the condition on the data, exact for every order of the objects, is
  `ScopeConnection.ConnectedIffNeverParted`, and `ScopeConnection.ApartIsNeverConnected` gives one that does not depend on
  the order (`ScopeBuilder.ScopeWithoutPods`, `ScopeBuilder.ScaledToZero`).
- A row that starts more than the TTL after a window can lengthen a range that ends just before the end of the window; the
  windowed query does not see it (`LateRows.LateRowsReachIn`, `LateRows.LateRowMayReachIn`).

## Model

| member | source | states |
|---|---|---|
| Sessions.EffectiveSessions | internal/history/coverage.go:191-212 | the loop computes Effective: stable sort by start, then each backfilled start moves back by the TTL, but never past the latest stored end before it |
| Sessions.MergeSessions | internal/history/coverage.go:249-268 | the in-place widening of the last range computes Merge, for any input order |
| Sessions.ClipSessions | internal/history/coverage.go:215-234 | the filter and clamp loop computes Clip, with a zero `since` meaning no lower bound |
| Sessions.GapsBetween | internal/history/coverage.go:270-279 | the loop computes Gaps: holes and a tail longer than the tolerance, with the end reason of the range before |
| Sessions.SortIsOrdered | internal/history/coverage.go:192-193 | sorting orders by start and keeps the multiset of sessions |
| Sessions.SortCommutesWithKeep | internal/history/coverage.go:192-193 | sorting is stable: it commutes with leaving sessions out |
| CoverageRanges.MergeIsComponents | internal/history/coverage.go:249-268 | merged ranges are the components of the recorded time: every session inside one, no hole longer than the tolerance inside a range, ranges further apart than the tolerance |
| CoverageRanges.ComponentsUnique | internal/history/coverage.go:249-268 | that description determines the ranges |
| CoverageRanges.MergeIgnoresOrder | internal/history/coverage.go:249-268 | the ranges depend only on the set of sessions, not on their order |
| CoverageRanges.MergeIdempotent | internal/history/coverage.go:249-268 | merging twice changes no field of any range |
| CoverageFold.EffectiveIsFair | internal/history/coverage.go:189-212 | a backfilled start moves back by at most the TTL and not past an earlier stored end, and by no less than these two bounds allow; order by start is kept |
| CoverageFold.CreditNeverDoubleCounted | internal/history/coverage.go:189-212 | a credited window is disjoint from every earlier stored session and from every earlier credited window |
| CoverageFold.MergedEffectiveIsFold | internal/history/coverage.go:165-180 | crediting then merging is one pass over the rows in start order |
| CoverageFold.MergedEffectiveSeparated | internal/history/coverage.go:165-180 | the merged effective coverage is sorted and separated by more than the tolerance |
| CoverageFold.CoverageIsExplained | internal/history/coverage.go:191-268 | each covered instant lies in a stored row, in a hole of at most the tolerance between two, or within TTL plus tolerance before a backfilled one |
| GapLabels.MergedRangesEndLikeRows | internal/history/coverage.go:249-268 | every merged range ends when one of its sessions does, and for the reason of the first one, in start order, that ends then |
| CoverageReport.ClipKeepsSeparated | internal/history/coverage.go:215-234 | clipping keeps order and separation and stays inside the window |
| CoverageReport.ReportTilesWindow | internal/history/coverage.go:215-279 | covered time + gap time + an unreported tail of at most the tolerance = until - Since; each gap is longer than the tolerance and carries the reason of the range it follows |
| CoverageReport.ReversedWindowReversesRanges | internal/history/coverage.go:215-234 | every window with `until` before `since` yields nothing, or one range that runs backwards from `since` to `until`: exactly when one range covers the window |
| CoverageReport.ClipForwardIff | internal/history/coverage.go:215-234 | clipping yields proper ranges if and only if the window is not reversed or no range covers it |
| CoverageWindow.SimFold | internal/history/coverage.go:191-268 | a pass over all sessions and a pass over those that end late enough stay in simulation: the same ranges, up to where the first one starts |
| CoverageWindow.FoldBeyond | internal/history/coverage.go:191-268 | sessions that start late only add ranges after the window, or extend a last range that ends near or after its end |
| CoverageWindow.ClipSim | internal/history/coverage.go:215-234 | simulating passes clip to ranges that differ at most in where the first one starts, and in that by no more than the slack |
| CoverageStore.Store.BeginSession | internal/history/coverage.go:90-104 | a new row starts and ends at the begin time; a failed write changes nothing |
| CoverageStore.Store.UpdateSession | internal/history/coverage.go:107-143 | touch, mark, end reason and end act on exactly the row with the id; no such row is reported as such |
| CoverageStore.Store.Clear | internal/history/store.go:401-412 | all coverage rows go, or none when the statement fails |
| CoverageStore.Store.Prune | internal/history/store.go:443-461 | rows that ended before the cutoff go, the others start no earlier than the cutoff; when the first or the second statement fails, the rest is left undone |
| CoverageStore.Store.Coverage | internal/history/coverage.go:146-187 | the windowed SELECT, then credit, merge, clip and gaps; a zero `until` means now |
| CoverageStore.PruneKeepsRowsOk | internal/history/store.go:447-461 | after pruning every row still ends no earlier than it starts, and starts no earlier than the cutoff |
| CoverageQueries.WindowedQueryPreservesMeaning | internal/history/coverage.go:154-186 | on well-formed rows the WHERE clause never changes a gap or its reason; Since too unless the window is shorter than the tolerance; ranges too when no row starts more than the TTL after `until` |
| CoverageQueries.QueryForwardIff | internal/history/coverage.go:146-187 | a query reports proper ranges if and only if the window is not reversed or no range of the selected rows covers it |
| CoverageQueries.WindowMayHideFlags | internal/history/coverage.go:154-186 | the backfilled flag and the scope of a range may differ from the whole table: an instance of the condition of QueryKeepsLabelsIff failing |
| LateRows.LateRowsReachIn | internal/history/coverage.go:154-186 | for a forward window, the query reports the ranges of the whole table if and only if no row that starts late joins a last range ending inside the window; otherwise only the end of that range differs, by less than the tolerance |
| LateRows.LateRowMayReachIn | internal/history/coverage.go:154-186 | a table with a row that starts late and does join |
| CoverageLabels.MergedRangesAreLabelled | internal/history/coverage.go:249-268 | every merged range has the scope of its first session in start order, and is backfilled if and only if one of its sessions is |
| CoverageLabels.QueryKeepsLabelsIff | internal/history/coverage.go:154-186 | when no row starts late, the query reports the same ranges as the whole table, in every field, if and only if, for each range that shows, its first row and its first selected row have the same scope and a selected row is backfilled if any is |
| CoverageLabels.QueryKeepsEverything | internal/history/coverage.go:154-186 | when no row of the key ends early or starts late, the whole report is that of the whole table |
| GapLabels.GapsNameTheirRow | internal/history/coverage.go:146-279 | every gap of every forward report begins where a row of the key ends, and has that row's end reason |
| CoveragePrune.PruneIsInvisible | internal/history/store.go:447-461 | for any window from the cutoff on and at least the tolerance long, pruning leaves every gap interval, and Since moves later by at most the tolerance; for reasons see CoverageReasons |
| CoveragePrune.DroppingIsInvisible | internal/history/store.go:454-457 | when only the DELETE goes through, the same holds, with every reason |
| LatestReasons.LastRangeIsLatest | internal/history/coverage.go:249-268 | the last merged range gives the reason of the first of the sessions that end last |
| CoverageReasons.PruneKeepsReasonsIff | internal/history/store.go:447-461 | pruning keeps the reason of every gap in every retained window if and only if the latest row that starts by the cutoff, in start order and in table order, gives the same reason, or is not recent, or a later row takes over |
| CoverageReasons.OrderedRowsKeepReasons | internal/history/store.go:447-461 | in a table in start order, pruning keeps every gap of every retained window, with its reason |
| CoverageReasons.RecordedReasonsSurvive | internal/history/recorder.go:603-759 | every table that recorders write, in any run, with the rows of other clusters in between, is in start order: so no reason is ever lost |
| CoverageReasons.CrossedRowsSwapReasons | internal/history/store.go:447-461 | for any two rows of a key that end together, the one that started first second in the table, the gap after them changes its reason |
| CoverageReasons.PruneMayChangeReason | internal/history/store.go:447-461 | a table out of start order in which the reason of a gap does change |
| RecorderSteps.Recorder.BeginSession | internal/history/recorder.go:732-742 | opens a row and makes it current; a failed write changes nothing |
| RecorderSteps.Recorder.StreamUp | internal/history/recorder.go:603-614 | one more live stream, then coverage is established |
| RecorderSteps.Recorder.StreamDown | internal/history/recorder.go:616-624 | one live stream fewer, never below zero |
| RecorderSteps.Recorder.CoverageEstablished | internal/history/recorder.go:654-677 | touches the current row, marking it backfilled if it began at most the tolerance ago; opens a backfilled row when there is none, it is gone, or it was last touched more than the tolerance ago |
| RecorderSteps.Recorder.CoverageTick | internal/history/recorder.go:681-730 | the heartbeat: touches the row of a live recorder; opens a new row after a late tick (the old one labelled when the machine slept) or when the row is gone; labels the row unreachable or denied when no stream has been live for longer than the tolerance; says when streams must resync |
| RecorderSteps.Recorder.FinishCoverage | internal/history/recorder.go:744-759 | ends the current row with the stop reason, unless it was last touched more than the tolerance ago |
| RecorderRuns.RunSound | internal/history/recorder.go:603-759 | in every run of recorder steps, crashes, failed writes, clears, prunes and writes of other clusters' recorders, each row of the cluster is the chain of its observations, each at most the tolerance after the one before |
| HonestCoverage.CoverageIsHonest | internal/history/recorder.go:654-759 | end to end, over every run: an instant reported covered lies between two observations of the key at most the tolerance apart, or, with a positive TTL, before the opening of a backfilled row near which a stream was established, and at most TTL plus tolerance before the start of that row |
| HonestCoverage.BackfillIsEarned | internal/history/recorder.go:654-677 | in every run a row marked backfilled had a stream established within the tolerance of its opening |
| HonestCoverage.EndedRowsNeverGrow | internal/history/recorder.go:681-759 | in every continuation of every run, a row with an end reason keeps its end |
| RecorderLabels.RecorderIsCounted | internal/history/recorder.go:603-630 | in every run the recorder's live count and stop reason are what the events tell: streams up less streams down since the last crash, and the last reason set |
| RecorderLabels.LabelsHaveCauses | internal/history/recorder.go:681-759 | in every run, from the events alone: a row reads rbac_denied or cluster_unreachable only after a tick without a live stream, more than the tolerance after the row's end, with or without a denial; system_sleep only after such a tick of a live recorder after a sleep; any other reason is the stop reason of the finish at which the row ends |
| RecorderLabels.TickWritesLabel | internal/history/recorder.go:681-719 | conversely, when the write of such a tick goes through, the open row has the label |
| RecorderLabels.FinishWritesLabel | internal/history/recorder.go:744-759 | when the write of a finish in time goes through, the open row ends now and has the stop reason that was set last |
| RecorderOrigins.RowsHaveOrigins | internal/history/recorder.go:654-742 | in every run each row of the cluster has the scope of the event that opened it, and starts at that event's time or at the cutoff of a prune |
| RecorderOrigins.NothingIsForgotten | internal/history/recorder.go:603-759 | in every run whatever was observed of a session is in the table, up to its last observation, unless the table was cleared or a prune had a later cutoff |
| RecorderOrigins.EstablishmentEarnsBackfill | internal/history/recorder.go:654-677 | in every run an establishment whose writes go through leaves an open row that ends now and, unless it was opened more than the tolerance ago, is backfilled |
| ClosedRows.ClosedRowsNeverChange | internal/history/recorder.go:654-759 | in every continuation of every run, a row that is not the open session's keeps its end, end reason, scope and mark, and its session is never taken up again |
| ClosedRows.SessionsAreLetGo | internal/history/recorder.go:681-759 | in every run a finish lets the session go, and so does a tick after it has lapsed, if no stream is live or the row of a new session can be written |
| ClosedRows.SessionsAreOpenedIff | internal/history/recorder.go:654-742 | in every run, if the row can be written: a tick opens a row if and only if some stream is live and there is no open row or it has lapsed; an establishment if and only if there is none, it has lapsed, or it cannot be touched |
| ClosedRows.ResyncIff | internal/history/recorder.go:681-719 | in every run a tick asks the streams to resync if and only if some are live and the open row ended more than the tolerance ago |
| CompleteCoverage.RecordedIsReported | internal/history/coverage.go:146-187 | every instant of a stored row inside the window is reported covered |
| CompleteCoverage.BackfillIsReported | internal/history/coverage.go:146-212 | every instant up to the TTL before a backfilled row, after whatever earlier rows recorded, is reported covered |
| CompleteCoverage.TickCoversNow | internal/history/recorder.go:681-730 | after a heartbeat of a live recorder whose writes succeed, a row of the key covers the present |
| CompleteCoverage.EstablishmentCoversNow | internal/history/recorder.go:654-677 | likewise after a stream is established |
| EventStore.EventDatabase.WriteBatch | internal/history/store.go:227-288 | one transaction: all rows that have a key and a UID are normalised and upserted and all resume points saved, or nothing changes |
| EventStore.EventDatabase.ClearEvents | internal/history/store.go:401-412 | all events go, or none when the statement fails; the resume points stay |
| EventStore.EventDatabase.ClearStates | internal/history/store.go:401-412 | all resume points go, or none when the statement fails; the events stay |
| EventStore.ApplyRowsAt | internal/history/store.go:208-273 | a batch acts on each event separately, in order |
| EventStore.FoldSummary | internal/history/store.go:208-223 | what every field of a stored event is after a list of versions: the maximum or minimum over all versions, the last writer, and the message of the last version seen latest |
| EventFields.BatchFields | internal/history/store.go:208-273 | after any batch, field by field and in the rows' own terms: last_seen is the maximum and first_seen the minimum of the old values and the rows' times, with the value of each missing or reversed time spelled out; count and series_count are maxima; type, reason and action are those of the last row, identity of the first; the message is that of the last row seen latest |
| EventFields.StoredFields | internal/history/store.go:248-273 | what one row stores, in each case of a missing, unset or reversed time |
| EventFields.BatchPoints | internal/history/store.go:274-288 | after any batch, each stream's resume point is the last one in the batch with a resource version, or the old one |
| EventFields.ReflectedFields | internal/history/store.go:208-223 | what it means, in the fields of the row, that a stored event is at least as recent as a version of it |
| EventStore.ReplayIsIdempotent | internal/history/store.go:225-288 | applying a committed batch again changes nothing |
| EventStore.BatchKeepsStoredOk | internal/history/store.go:248-273 | stored events keep first_seen <= last_seen and count >= 1 whatever arrives |
| EventStore.CoalescingIsSafe | internal/history/recorder.go:578-583 | upserting only the latest of monotone versions equals upserting them all if and only if the event is already stored or its identity did not change |
| EventWriter.Writer.constructor | internal/history/recorder.go:533-539 | a writer starts with nothing pending |
| EventWriter.Writer.Reset | internal/history/recorder.go:540-544 | drops everything pending |
| EventWriter.Writer.FlushPending | internal/history/recorder.go:545-568 | writes the batch; on success forgets it, on failure keeps it, or drops it above the pending limit |
| EventWriter.Writer.Take | internal/history/recorder.go:569-590 | coalesces a row by UID or a resume point by namespace, keeps the order of first arrival, and flushes a full batch |
| EventWriter.Writer.Run | internal/history/recorder.go:569-595 | the select loop over any finite run, and the flush on close |
| EventWriter.NextOk | internal/history/recorder.go:533-595 | `order` always lists the keys of `rows`, each once |
| EventWriter.SavedIsResumed | internal/history/recorder.go:545-568 | saving the pending resume points, in any order of the map, leaves exactly these for their namespaces and all others as they were |
| WriterRuns.ResumePointNeverAhead | internal/history/recorder.go:533-595 | over every run without the pending-limit reset, a resume point in the database arrived after items that are all stored |
| WriterRuns.DroppedRowsAreLost | internal/history/recorder.go:557-565 | whatever step drops the backlog, the next resume point is saved with the event table as it was before: no dropped version, of a new or a stored event, is reflected unless it already was |
| WriterLoss.BacklogIsLost | internal/history/recorder.go:533-595 | such a run from the start: the database rejects writes while more rows arrive than the writer keeps, and then a later resume point is saved without them |
| WriterRuns.BatcherRefinesRowByRow | internal/history/recorder.go:533-595 | over every run without the pending-limit reset in which the versions of each event only grow and keep its identity, the batcher refines a writer that upserts each row as it arrives: the same stored event, up to the durable point |
| WriterTiming.SmallBatchesWait | internal/history/recorder.go:570-590 | as long as fewer events than a full batch wait, nothing is written, and exactly these wait |
| WriterTiming.WorkingKeepsUp | internal/history/recorder.go:570-590 | while the database works, fewer events than a full batch wait after every step |
| WriterTiming.FailedWritesWaitForTicker | internal/history/recorder.go:545-590 | after a failed write nothing is written until the ticker, whatever is received; what waited still waits, unless more than the pending limit did |
| WriterTiming.SuccessEndsWaiting | internal/history/recorder.go:545-590 | a write that goes through leaves nothing pending, and full batches are written again as they come |
| WriterTiming.SmallBacklogsAreKept | internal/history/recorder.go:557-565 | in every run in which no more events than the pending limit are received, nothing is dropped, whatever fails |
| WriterRuns.RunKeepsTrace | internal/history/recorder.go:533-595 | over every run without the pending-limit reset, what is pending is the latest of the items that are not durable, each stored event is at least as recent as its latest durable version, and the saved resume points are exactly the latest durable ones |
| RingBuffer.EvidenceBuffer.constructor | internal/engine/ringbuffer.go:31-41 | an empty buffer; a capacity of zero or less becomes the default |
| RingBuffer.EvidenceBuffer.Insert | internal/engine/ringbuffer.go:43-83 | collapses into the indexed event, or pushes to the front and evicts down to the capacity; afterwards every index entry is the oldest position of its fingerprint |
| RingBuffer.EvidenceBuffer.Reindex | internal/engine/ringbuffer.go:95-101 | the index maps each fingerprint to its oldest position |
| RingBuffer.EvidenceBuffer.LastMatch | internal/engine/ringbuffer.go:139-146 | the oldest event that matches, or -1 when none does |
| RingBuffer.EvidenceBuffer.DropAt | internal/engine/ringbuffer.go:148-154 | one event fewer, counted by severity |
| RingBuffer.EvidenceBuffer.Evict | internal/engine/ringbuffer.go:104-136 | removes the victim of the five tiers |
| RingBuffer.EvidenceBuffer.EvictDown | internal/engine/ringbuffer.go:80-83 | evicts until the buffer fits |
| RingBuffer.EvidenceBuffer.KeepPods | internal/engine/ringbuffer.go:156-181 | keeps what is not a log and the logs of the named pods |
| RingBuffer.EvidenceBuffer.DropPods | internal/engine/ringbuffer.go:183-205 | drops the logs of the named pods |
| RingBuffer.EvidenceBuffer.DropLogs | internal/engine/ringbuffer.go:207-220 | drops all logs |
| RingBuffer.VictimIsUnique | internal/engine/ringbuffer.go:104-136 | the eviction rule determines one victim |
| EvidenceRuns.VictimProtectsEvents | internal/engine/ringbuffer.go:104-136 | a Kubernetes event is evicted only when everything is one, a critical one only when all are critical |
| EvidenceRuns.EventsNeverLost | internal/engine/ringbuffer.go:43-220 | in any run of additions and filters with at most `cap` distinct Kubernetes event fingerprints, each is in the buffer exactly once, with the highest severity of its occurrences and the first count plus one per later occurrence |
| EvidenceRuns.DropsAddUp | internal/engine/ringbuffer.go:104-154 | the per-severity drop counters add up to the total, and the capacity is never exceeded |
| EvidenceRuns.AdditionsAreConserved | internal/engine/ringbuffer.go:43-153 | additions = events in the buffer + dropped + collapsed, in runs of additions |
| EvidenceNames.SamePrintIff | internal/engine/ringbuffer.go:246-264 | evidence has the same fingerprint if and only if it tells the same: reason, kind and name of an event, pod, container and text of a log, kind, name and reason of a change, name and reason of a metric, reason and text of the system; for parts free of bars |
| EvidenceNames.SameLineIff | internal/engine/ringbuffer.go:272-277 | log lines have the same fingerprint if and only if pod, container, text and time are the same, and none has that of other evidence |
| EvidenceNames.SubjectsNeverLost | internal/engine/ringbuffer.go:43-220 | in any run whose events are about at most `cap` subjects (reason, kind, name), the buffer has exactly one event about each: the text of the last, the highest severity, and the first count plus one per later one |
| EvidenceFilters.FilterLeaves | internal/engine/ringbuffer.go:156-220 | a filter leaves exactly the events that stay, each as often as it was there: what is no log, and the logs of the named, or of the not named, pods |
| EvidenceFilters.FilterKeepsOrder | internal/engine/ringbuffer.go:156-220 | and in their order |
| EvidenceFilters.FilterCounters | internal/engine/ringbuffer.go:156-220 | filtering counts nothing as dropped; clearing all logs starts the counters again |
| EvidenceFilters.LinesAreNeverMerged | internal/engine/ringbuffer.go:43-83 | in any run of at most `cap` additions nothing is dropped, and every log line is in the buffer, however alike they are |
| EvidenceOrder.VictimIsLeastValuable | internal/engine/ringbuffer.go:104-136 | the victim is the oldest INFO log, else the oldest log, else the oldest that is no Kubernetes event, else the oldest that is not critical, else the oldest |
| EvidenceOrder.AdditionGoesInFront | internal/engine/ringbuffer.go:43-93 | what is added, or has absorbed an earlier one, goes in front of what was there, with all that it tells and the present for an unset time, and the rest stays in order |
| EvidenceOrder.SeveritiesAreConserved | internal/engine/ringbuffer.go:43-154 | in a run of additions, for each severity: additions = in the buffer + counted as dropped + absorbed by something at least as severe |
| LogFollow.Controller.constructor | internal/kube/log_streamer.go:83-90 | no stream, no waiter; zero means the default limit |
| LogFollow.Controller.Ensure | internal/kube/log_streamer.go:160-198 | starts, queues or ignores a target; when it warns |
| LogFollow.Controller.EnqueuePending | internal/kube/log_streamer.go:200-216 | leaves a waiting target alone; otherwise appends it and drops the oldest ones over the queue limit |
| LogFollow.Controller.OnStreamDone | internal/kube/log_streamer.go:234-266 | frees the slot and starts the oldest waiter; the branch that puts a waiter back and the one that finds no token cannot be reached |
| LogFollow.Controller.StopPod | internal/kube/log_streamer.go:268-294 | cancels a pod's streams and removes its waiters |
| LogFollow.Controller.SyncPod | internal/kube/log_streamer.go:296-341 | stops what is not wanted of a pod, and ensures its containers |
| LogFollow.Controller.ReconcileFromList | internal/kube/log_streamer.go:343-380 | the listed pods are synced, and then exactly the pods that are not live are stopped: the new state is that of syncing without the streams and waiters of those pods |
| LogFollow.OnlyLivePodsRemain | internal/kube/log_streamer.go:343-380 | that is: streams and waiters of listed pods are left exactly as syncing left them, every other stream is cancelled, and no other waiter remains |
| LogFollow.StoppedAllIsWithout | internal/kube/log_streamer.go:375-380 | stopping a list of pods one by one cancels exactly their streams and drops exactly their waiters |
| LogFollow.EnsuredSound | internal/kube/log_streamer.go:160-216 | ensuring keeps the invariant |
| LogFollow.KeptOnlySound | internal/kube/log_streamer.go:268-336 | stopping keeps the invariant |
| LogFollow.DonePromotesOldest | internal/kube/log_streamer.go:234-266 | a completion promotes exactly the oldest waiter into the slot it frees |
| LogFollow.PrefixFindsPod | internal/kube/log_streamer.go:57-59 | for names without a slash the prefix test finds exactly the pod's streams, and what follows it is the container |
| LogFollow.StopAffectsOnlyThePod | internal/kube/log_streamer.go:268-336 | streams and waiters of other pods, and of wanted containers, are left as they were |
| LogFollow.StoppedAllStops | internal/kube/log_streamer.go:343-380 | stopping a list of pods leaves no waiter and no uncancelled stream of any of them |
| FollowSync.LivePodSynced | internal/kube/log_streamer.go:296-341 | after a sync of an allowed live pod, each listed container was followed or waiting and stays so, or is now followed uncancelled or waiting, unless a full queue displaced it; its other containers are cancelled or gone; all other streams are as they were |
| FollowSync.EndingPodSynced | internal/kube/log_streamer.go:311-316 | a sync of an ending pod cancels all its streams and drops all its waiters, and leaves everything else |
| FollowSync.ForbiddenPodSynced | internal/kube/log_streamer.go:299-301 | a pod that is not allowed changes nothing |
| FollowSync.SyncLeavesOthers | internal/kube/log_streamer.go:296-341 | any sync leaves the streams of other pods as they are; their waiters go only when every slot is taken and the queue is full |
| FollowSync.RemainingInOrder | internal/kube/log_streamer.go:318-331 | waiters that remain keep their order |
| FollowSync.PodsInLine | internal/kube/log_streamer.go:343-352 | syncing a list of pods keeps each allowed one in line: its listed containers followed or waiting unless displaced, its others cancelled or gone |
| FollowSync.Reconciled | internal/kube/log_streamer.go:343-380 | after a reconcile every allowed pod of the list is in line, and nothing is followed uncancelled, or waits, but listed containers of allowed pods that are not ending |
| FollowRuns.RunSound | internal/kube/log_streamer.go:160-292 | in every reachable state: tokens = streams <= maxRequests, the queue is duplicate-free, bounded by four times that, disjoint from the streams, and empty unless all slots are taken |
| FollowRuns.LeavesForAReason | internal/kube/log_streamer.go:160-292 | a target stops being tracked only by completion, by removal, or as the oldest waiter of a full queue |
| FollowRuns.CompletionDrains | internal/kube/log_streamer.go:234-266 | each completion lowers streams + waiters by one, and while there are any some completion is enabled |
| FollowRuns.DrainsCompletely | internal/kube/log_streamer.go:234-266 | after cancellation every run of completions ends, after exactly as many as there were streams and waiters |
| FollowRuns.PromotedInOrder | internal/kube/log_streamer.go:234-266 | the queue is consumed from the front |
| ClusterKeys.ContextIsRecovered | internal/history/key.go:18-29 | ContextFromKey(ClusterKey(c, u)) = c for every c, bars included |
| ClusterKeys.KeyIdentifiesCluster | internal/history/key.go:15-22 | equal keys mean the same context and the same six leading hash bytes |
| RecorderOwnership.RunSound | internal/history/manager.go:318-447 | over all interleavings a lock is held by exactly the recorder that acquired it, a recorder that has not been registered has not been launched, and one past the wait has ended |
| RecorderOwnership.OneRecorderPerCluster | internal/history/manager.go:370-428 | over all interleavings of the steps of reconcile, stop, close and crash, of which every call of the manager is a run, no two live recorders, in any processes, have the same key |
| RecorderOwnership.LockOutlivesRecorder | internal/history/manager.go:423-447 | in every run a lock is freed only after its recorder has ended, was never launched, or died with its process: a consequence of the order cancel, wait, release in halt |
| RecorderOwnership.HaltProgramRuns | internal/history/manager.go:423-428 | halt is a run of cancel, wait and release, during which the goroutine ends, and frees exactly the recorder and its lock |
| RecorderOwnership.OthersDoNotDisturb | internal/history/manager.go:318-447 | what a thread can do next with its own recorder it can still do after any step about another one: only acquisitions race |
| RecorderOwnership.ClosedStaysQuiet | internal/history/manager.go:403-413 | once a closed manager has stopped its recorders, none of its recorders is alive in any continuation of any run |
| Manager.LockTable.TryAcquire | internal/history/lock.go:20-33 | takes a free lock for a new recorder, as one step; a held one is refused |
| Manager.LockTable.Unlock | internal/history/lock.go:36-43 | frees the lock, as one step of the world of all processes |
| Manager.LockTable.Finish | internal/history/manager.go:423-428 | cancels, waits, and only then releases |
| Manager.UniqueNonEmpty | internal/history/manager.go:630-642 | trimmed, non-empty, no duplicates, nothing lost, each where it first occurs |
| Manager.Manager.Desired | internal/history/manager.go:305-316 | the active and favourite contexts, or none when off or paused |
| Manager.Manager.StartContext | internal/history/manager.go:370-420 | exactly one of: unavailable, no lock file, other window, closed meanwhile (the lock is given back), running; with the new state and the new world for each, and the steps that lead there |
| Manager.StartingSettles | internal/history/manager.go:370-420 | starting settles a context: unless the manager is closed it runs, or is blocked for the reason that was met (no such cluster, no lock file, another holder of the key); no other context is concerned and no lock given up |
| Manager.Manager.Reconcile | internal/history/manager.go:318-367 | running ⊆ desired, and each desired context runs or is blocked for the reason that was met, its key known; wanted recorders keep running, the keys of the others are free afterwards; the recorders of the process are exactly the running ones; the call is a run of enabled steps that touches no other process |
| Manager.Manager.StopAll | internal/history/manager.go:436-447 | nothing runs, and this process has no recorder and so no lock; the call is a run of enabled steps |
| Manager.Manager.Clear | internal/history/manager.go:237-244 | stops every recorder of the process, then deletes events, coverage and resume points one after the other, up to the first that fails; the call is a run of enabled steps |
| Manager.Manager.Restart | internal/history/manager.go:675-684 | everything stops and is forgotten, for the next reconcile; the call is a run of enabled steps |
| Manager.Manager.Close | internal/history/manager.go:185-201 | closes once: stops everything and stays quiet; a second call changes nothing; the call is a run of enabled steps |
| InvestigationScope.KeyTextIdentifies | internal/investigation/scope.go:28 | for kinds without a bar, the joined key text stands for the pair |
| InvestigationScope.AddedKeepsGroups | internal/investigation/scope.go:143-203 | after adding, each slice holds exactly the resources in scope of its kinds, each once |
| InvestigationScope.LinkedIsSound | internal/investigation/scope.go:206-210 | linking brings both ends into scope and connects the second as soon as the first is connected |
| ObjectIndex.NewIndex | internal/investigation/index.go:10-19 | the children of each key in input order, and the last object of each key |
| ObjectIndex.LastOneCounts | internal/investigation/index.go:10-19 | of several objects with the same kind and name the last one counts |
| ObjectIndex.WalkDown | internal/investigation/index.go:22-33 | terminates on an acyclic owner relation, and lists owners before what they own, in the order of the data |
| ObjectIndex.Descendants | internal/investigation/index.go:22-33 | yields exactly the objects owned below the root |
| ObjectIndex.PodsOf | internal/investigation/index.go:35-43 | exactly the pods below the root |
| ObjectIndex.PodLabels | internal/investigation/index.go:54-72 | the labels of the root's pods merged in the order of the walk, the last value of a label winning; the root's own when they have none |
| ObjectIndex.FewerBelowAChild | internal/investigation/index.go:22-33 | why the walk terminates: fewer objects lie below a child than below its owner |
| ScopeGrowth.ChildrenAreOwned | internal/investigation/builder.go:136-146 | walking the owner tree keeps everything connected to the root, records ownership only where it holds, and brings in only what descends from the root and what that refers to by name |
| OwnedLinks.SubtreeRecords | internal/investigation/builder.go:136-146 | the walk below a child records every owner that it reaches with each of its children |
| ScopeGrowth.PodIsRecorded | internal/investigation/builder.go:148-164 | from a pod's fields alone: each name in its ConfigMaps, Secrets and claims is a mount of that kind and name, its node a Schedules and its account a Uses relationship |
| ScopeGrowth.PodFieldLinks | internal/investigation/builder.go:148-164 | conversely, each relationship of a pod comes from such a field |
| ScopeGrowth.PodsLinkedIsBuilt | internal/investigation/builder.go:53-56 | a resource that is linked to the pods is connected, if there is a pod |
| ScopeAnchors.SurroundedStaysAnchored | internal/investigation/builder.go:48-127 | whatever is in the finished scope is connected to the root or to something selected by labels |
| ScopeLinks.SurroundingsAreExplained | internal/investigation/builder.go:48-127 | every relationship outside the owner tree is called for by an object of the data, in terms of its kind, selector, owner, target, role and subject, or by a related custom resource |
| ScopeLinks.SurroundingsAreRecorded | internal/investigation/builder.go:48-127 | conversely everything that the data calls for is recorded: matching services, budgets and policies select every pod of the tree, served endpoints and ingresses route, autoscalers target, bindings bind subject and role, events and related resources relate |
| ScopeLinks.PicksIsMatching | internal/investigation/index.go:84-95 | a selector matches if and only if it names a label and every label that it names has the value; a missing label counts as empty |
| ScopeConnection.ConnectedIffSelectedConnected | internal/investigation/builder.go:48-127 | for objects with names, the finished scope is connected if and only if everything selected by labels is |
| ScopeTies.ConnectedIffNeverLeftOut | internal/investigation/builder.go:48-127 | a resource is connected to the root if and only if every set around the root that no relationship crosses takes it in |
| ScopeTies.UncrossedIffAligned | internal/investigation/builder.go:48-127 | for any data, a set of keys is crossed by no relationship of the finished scope if and only if it is crossed by none of the owner tree and by none of the ties computed from the data |
| OwnerTree.BareTreeIsOwn | internal/investigation/builder.go:19-46 | without pods, the owner tree holds exactly the root, what it owns and what its object refers to, and ties all of these to the root |
| ScopeConnection.ConnectedIffNeverParted | internal/investigation/builder.go:48-127 | for a root without pods, a resource is connected in the finished scope if and only if no set of keys around the root's own, uncrossed by the ties of the data, leaves it out; the order of the objects included |
| ScopeConnection.ApartIsParted | internal/investigation/builder.go:48-127 | a set into which and out of which nothing in the data refers is such a set's complement, in whatever order the objects come |
| ScopeConnection.ApartIsNeverConnected | internal/investigation/builder.go:48-127 | nothing of such a set is connected to a root without pods: for instance a service with its endpoints, its ingress and the events about it |
| ScopeConnection.WithoutPodsConnectedIff | internal/investigation/builder.go:48-127 | for a root without pods and objects with names, the finished scope is connected if and only if no set of keys uncrossed by the ties of the data parts the root from something selected |
| ScopeBuilder.WorkingScope.Add | internal/investigation/scope.go:143-203 | adds a named resource once, in the slice of its kind, with the scope's namespace when it has none |
| ScopeBuilder.WorkingScope.Link | internal/investigation/scope.go:206-210 | both ends in scope, and the relationship recorded |
| ScopeBuilder.WorkingScope.LinkRefs | internal/investigation/builder.go:160-164 | one relationship per name, in order |
| ScopeBuilder.WorkingScope.ExpandPod | internal/investigation/builder.go:148-158 | the pod's node, mounts and service account, in this order |
| ScopeBuilder.WorkingScope.ExpandChild | internal/investigation/builder.go:136-146 | exactly what the walk over the whole subtree adds, and the pods that it marks; each marked pod is in scope and expanded |
| ScopeBuilder.WorkingScope.ExpandOwnership | internal/investigation/builder.go:20-35 | connected; every pod that descends from the root is in scope, and what it refers to is recorded |
| ScopeBuilder.WorkingScope.LinkRootRefs | internal/investigation/builder.go:37-46 | exactly what the root object refers to, and nothing when the root has no object |
| ScopeBuilder.WorkingScope.LinkServices | internal/investigation/builder.go:48-58 | exactly the matching services, linked to every pod |
| ScopeBuilder.WorkingScope.LinkRoutes | internal/investigation/builder.go:59-73 | endpoints owned by these services and ingresses in front of them |
| ScopeBuilder.WorkingScope.LinkPolicies | internal/investigation/builder.go:75-97 | autoscalers of the root, policies that select its pods, bindings of what is in scope |
| ScopeBuilder.WorkingScope.LinkEvents | internal/investigation/builder.go:98-103 | events about what is in scope |
| ScopeBuilder.WorkingScope.LinkExtensions | internal/investigation/builder.go:105-118 | exactly the related custom resources, linked in order, and the extensions that have one, each with its related resources by kind |
| ScopeBuilder.BuildScope | internal/investigation/builder.go:8-129 | after the owner tree the pods in scope are exactly the root's transitive pod descendants (and the root, if a pod); every owner that the walk reaches is recorded with each child, what the fields of the root and of each pod name is recorded, and every ownership, mount, node and account relationship comes from an owner or a field of the data; in the end both ends of every relationship are in scope, matching services, routes, policies, events and related resources are in scope, if there is a pod, everything is connected to the root, and, for objects with names, everything is connected if and only if the root has a pod or no set of keys uncrossed by the ties of the data parts it from something selected |
| ScopeBuilder.ScopeWithoutPods | internal/investigation/builder.go:8-129 | the program called on a root without pods whose labels select a resource of a set into which and out of which nothing refers: the resource is in scope, and nothing of the set is connected |
| ScopeBuilder.ScaledToZero | internal/investigation/builder.go:8-129 | a concrete call of that kind: a deployment scaled to zero, and its service with an endpoint slice, an ingress and an event |
| HelmValues.NormalizeHelmScalar | internal/kube/helm_values.go:56-78 | computes Normalized: numbers become one format, all the way down |
| HelmValues.SameIffAlike | internal/kube/helm_values.go:56-78 | values count as the same if and only if they are alike: equal strings, booleans and integers, equal floats, a float and the 64-bit integer that it holds, lists item by item, maps key by key |
| HelmValues.DiffHelmValueMaps | internal/kube/helm_values.go:32-54 | the recursive filling of a fresh map computes Diff |
| HelmValues.HelmUserSuppliedValues | internal/kube/helm_values.go:22-30 | computes UserSupplied, shortcuts included |
| HelmValues.DiffPreservesMeaning | internal/kube/helm_values.go:22-78 | merging the difference over the defaults gives what merging the values over the defaults gives, up to the number format, at any depth |
| HelmValues.DiffIdempotent | internal/kube/helm_values.go:32-54 | nothing more can be left out |
| HelmValues.DiffEmptyIffNothingAdded | internal/kube/helm_values.go:32-54 | empty exactly when the values add nothing to the defaults |
| HelmValues.UserSuppliedIsDiff | internal/kube/helm_values.go:22-30 | the two shortcuts agree with the difference |
| HelmValues.DiffIsMinimal | internal/kube/helm_values.go:32-54 | without any one of its entries, at any depth, the difference no longer restores the values |
| EventDedupe.DedupeEventRecords | internal/kube/events.go:263-295 | the loop over two kinds of keys computes Deduped |
| EventDedupe.MergeRecordedEvents | internal/kube/events.go:88-103 | live rows, then recorded rows with a UID, deduplicated; `added` counts the recorded rows of the result |
| DedupeFacts.RepeatsIff | internal/kube/events.go:263-270 | rows with the same kind, name, reason and message repeat each other, and, for kinds, names and reasons without bars, only these and rows with the same UID |
| DedupeFacts.FindsRepeats | internal/kube/events.go:263-295 | a row is collapsed exactly when it repeats the content or the UID of an earlier row |
| DedupeFacts.KeepsNewRows | internal/kube/events.go:263-295 | the output is the rows that repeat none, in input order |
| DedupeFacts.OutputDistinct | internal/kube/events.go:263-295 | no two output rows share content or a non-empty UID |
| DedupeFacts.OutputStandsForInput | internal/kube/events.go:270-292 | each output row carries the highest count, the earliest first sighting and the conjunction of the recorded flags of the rows collapsed into it |
| DedupeFacts.CollapsedRowsAreLinked | internal/kube/events.go:270-292 | rows are collapsed together only along equal content or equal UID |
| DedupeFacts.DedupeIdempotent | internal/kube/events.go:263-295 | deduplicating again changes nothing |
| DedupeFacts.MergeKeepsLiveFirst | internal/kube/events.go:88-103 | live rows come first and in order, and `added` is the number of rows after them |
| ShellQuote.QuoteIsText | cmd/klew-desktop/terminal.go:439-444 | a quoted value adds exactly its own text to the word in progress |
| ShellQuote.QuotingRoundTrip | cmd/klew-desktop/terminal.go:439-444 | for every list of values, lexing the space-joined quotes gives the list back |
| ShellQuote.QuotingIsInjective | cmd/klew-desktop/terminal.go:439-444 | different lists quote differently |
| ShellQuote.ScriptIsInert | cmd/klew-desktop/terminal.go:329-343 | a script of quoted arguments lexes as exactly its own commands, whatever the values contain |
| ShellQuote.BuildUnixInitScript | cmd/klew-desktop/terminal.go:329-343 | the script that the program writes lexes as its own commands with the path, context, namespace and notice as plain arguments |
| ShellQuote.PrintfPiece | cmd/klew-desktop/terminal.go:331-339 | one printf with a literal format and quoted arguments |

## Left out

- CoveragePrune.PruneIsInvisible: states gap intervals for every table; when reasons stay too is `CoverageReasons.PruneKeepsReasonsIff`.
- RecorderRuns.RunSound: each recorder call is one step; the interleavings of the store write between two sections under the lock are not modelled.
- Manager.Manager.Reconcile: its contract is about a call into whose steps no other thread comes; the theorems of `RecorderOwnership` are about all interleavings of such steps.
- ScopeBuilder.BuildScope: the API group that is looked up for the kind of a related custom resource is not modelled, and whether a resource is related is a parameter in place of the name comparison.
- HelmValues.NormalizeHelmScalar: infinities, not-a-number and the rounding of floating-point numbers are not modelled: a float is the exact real that it holds.
- Listing and watching through the Kubernetes API, permission probing and metrics: network I/O, which appears as the steps that reach the recorder, the writer and the scheduler.
- SQLite, its journal, VACUUM, file sizes, schema migration, and pruning by size: the database is a table with atomic batches that may fail.
- HistoryStart and GapsOverlapping: single selections over what `Coverage` already returns.
- Goroutine scheduling inside one recorder, contexts and timeouts: cancellation is a step.
- Backoff, volume guard, log-tail pause flags and status notifications: easy next to the above.
- The text announced when log following reaches its limit; only when it is announced is modelled.
- PowerShell quoting and the preview quoting of kubectl commands: neither has the clean round trip.
- Correlation heuristics, severity classifiers, inspectors, the catalogue and the user interface.
- YAML rendering of Helm values.
