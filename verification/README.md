# WebOBS control services: a verified model

WebOBS is a camera wall and network video recorder. Its Python control services
hold several protocols: who may record a camera, how long a segment file lives,
what an evidence export may publish, when a moving camera is stopped, how
preferences of two editors are merged, how a configuration upgrade is rolled
back, and how a backup is framed. This project models those protocols in Dafny
4.11 and proves what they are for.

`dafny verify dfyconfig.toml` checks everything.

## How the model is built

- Every block under a lock or transaction is one atomic step. A protocol is a
  state, a `Step` type with one constructor per such block, a total function
  `Next` (a rejected request changes nothing) and `Run`, which folds `Next` over
  any sequence of steps. Safety is an invariant with one preservation lemma per
  part, and theorems over all runs. Lost and late replies, crashes and races are
  steps or missing steps, not assumptions: a request and the arrival of its reply
  are two steps, and everything else can happen between them.
- Where the source is an object that updates its fields, or a loop, there is a
  class or method in that form whose contract ties it to the step function
  (`Tables() == Next(old(Tables()), ...)`), to a specification function of the old
  state, or to a declarative specification. In the classes of the concurrent
  protocols `Agrees(s)` says that the object's fields are those of the abstract
  state `s`, whose other components belong to other threads.
- What an operation does for its callers is stated apart from how it is defined:
  over runs where it matters (what a revocation, a lease, a grant or an export is
  worth until when), and otherwise with every condition and result written out.
- Counterexample lemmas give a concrete run where a tempting property fails; the
  exact condition is proved next to it.

| files | what they model |
|---|---|
| `Placement`, `ClusterStore`, `Capacity` | the controller's tables, the choice of a node, admission and the capacity bound |
| `Fencing`, `FencingLimits`, `LeaseEffects`, `NodeAgent` | leases, isolation, generations and the recorder's check as one distributed system; the agent's loop, each round of which is a run of that system |
| `DetectorJobs` | detector jobs, their media grants and the frame counter |
| `SegmentLifetime`, `SegmentEffects`, `Maintenance`, `RetentionRun` | segments, locks, pins, leases and exports on the shared catalog; the retention loop, alone and among the other threads; crash-safe migration |
| `Evidence`, `ExportJobs` | coverage and timeline arithmetic; the export job machine |
| `PtzSession`, `PtzAutoStop` | the PTZ session table; the automatic stop timers |
| `PreferenceMerge` | three-way merge and field removal |
| `DiskTree`, `UpgradeGuard`, `GuardOutcomes`, `GuardProgram` | the upgrade guard on a directory tree that may crash at any disk operation |
| `ByteFiles`, `BackupStream`, `ByteRange` | the encrypted backup stream; byte ranges of a served file |
| `Options` | an optional value, used everywhere |

## What the code does that its users might not expect

These are results, each with a concrete run or an exact condition.

- The recorder lease is exclusive only as far as clocks agree: with a node clock
  that lags by `lag` seconds the old holder can pass the check for less than `lag`
  seconds after a new grant (`Fencing.OldHolderIsFenced`), and it still can in the
  last second this allows (`FencingLimits.LaggingClocksOverlap`).
- `report_job_result` clears the isolation deadline at once. A report can be
  followed by two nodes recording on exact clocks if and only if the reporter still
  had an unexpired entry, published, in its working copy or in a reply on its way
  (`FencingLimits.ReportOverlapsExactly`, `FencingLimits.ReportBeforeDropOverlaps`).
- The worker's failure update takes no lock, so it can land between the read and
  the write of a cancel call, whose write then turns the failed job `cancelling`
  after its worker has let go of it (`ExportMachine.FailedJobCanTurnCancelling`).
  A failed job stays failed whatever follows if and only if no pending cancel call
  names it (`ExportMachine.FailedIsFinalIff`).
- A continuous PTZ movement loses its guard in exactly three ways
  (`AutoStop.GuardLostExactly`): its automatic Stop ends in an exception the
  callback does not handle, the audit of its failed Stop fails, or the timer that
  replaces an armed one cannot be started. Each has a run
  (`AutoStop.EscapedStopLeavesMovement`, `AutoStop.FailedAuditLeavesMovement`,
  `AutoStop.FailedStartLeavesMovement`) after which the movement is owed a stop
  and none is sent until somebody gives a new command (`AutoStop.AbandonedForEver`).
- Two saves of one baseline give the same document in either order exactly when
  they are compatible key by key (`PreferenceMerge.CommuteOnlyIfCompatible`).
- A rollback completes exactly when no link or device is outside the backup
  directory (`UpgradeGuard.RollbackRestores`), and a preparation completes only
  with sound databases (`UpgradeGuard.PrepareCompletes`).
- An empty backup input does not survive the round trip: the writer emits no
  final chunk (`BackupStream.RoundTrip`).
- A `Range` header with an unknown unit is refused with 416, where section 14.2 of
  RFC 9110 asks servers to ignore it, and a suffix of an empty file is refused
  although it is satisfiable by section 14.1.2 (`ByteRange.WholeOnlyWithoutHeader`,
  `ByteRange.DecideMeetsStandard`).

## Model

| member | source | states |
|---|---|---|
| Placement.SumStep | cluster/cluster_service.py:1147-1166 | the load of a node does not depend on the order in which its rows are added up: any row may be taken out first |
| Placement.CheckCandidate | cluster/cluster_service.py:1137-1186 | the checks of one node row, made in the source's order (clock and last contact, capacity with the new task added, then usable volumes for recording tasks), pass exactly when the node is eligible |
| Placement.SelectNode | cluster/cluster_service.py:1126-1193 | the scan returns the eligible node that outranks every other by score, then id; none exactly when no node is eligible |
| Placement.ChoiceUnique | cluster/cluster_service.py:1193-1193 | there is one such node at most, so selection is a function of the tables |
| Placement.SumReservations | cluster/cluster_service.py:1143-1146 | the accumulating loop equals the sum of the node's reported reservations |
| Placement.SumVolumes | cluster/cluster_service.py:1178-1181 | the accumulating loop equals the space above the reserve of online writable volumes, and none counts negatively |
| Placement.SumRecordings | cluster/cluster_service.py:1147-1158 | the accumulating loop equals the load of the node's other recordings with unexpired isolation |
| Placement.SumDetectors | cluster/cluster_service.py:1159-1166 | the accumulating loop equals the load of the node's running detector jobs |
| ClusterService.ClusterStore.Assign | cluster/cluster_service.py:1099-1124 | new tables and reply are those of the assignment transaction: isolation is checked, the generation goes up by one, lease and isolation deadlines are set |
| ClusterService.ClusterStore.Renew | cluster/cluster_service.py:1195-1215 | tables and reply of a renewal: only the holder with the current generation of an active row |
| ClusterService.ClusterStore.RevokeNode | cluster/cluster_service.py:1065-1080 | tables and reply of the revocation step of the protocol, of which LeaseEffects.RevokedNodeStops says what it does |
| ClusterService.ClusterStore.ReportJobResult | cluster/cluster_service.py:1576-1594 | tables and reply of a job result: only for the holder's active row; both deadlines become zero |
| ClusterService.ClusterStore.AcceptCatalog | cluster/cluster_service.py:1596-1664 | a batch is filed row by row, rows of a node that does not hold the key with that generation are marked as conflicts, and the counts are right |
| Capacity.GrantLoad | cluster/cluster_service.py:1111-1119 | a grant adds exactly the new cost to the node's other load, also when it replaces the node's own row |
| Capacity.LoadCounts | cluster/cluster_service.py:1147-1166 | a node's load is the sum of the costs of exactly its active rows with isolation ahead, but the task's own, and of its running detector jobs with a live lease |
| Capacity.EligibleMeans | cluster/cluster_service.py:1129-1183 | a node may take a task exactly if it is online, not revoked, of the part asked for, within five seconds of clock, heard of within twenty, carries the task in every dimension on top of what it reports and of what it was given (a quarter of its means when not rated), and has a volume to record to |
| Capacity.ChoicePrefers | cluster/cluster_service.py:1184-1193 | between eligible nodes a gibibyte more of usable space decides, with equal space the stable hash, then the id |
| Capacity.ChoiceExists | cluster/cluster_service.py:1186-1193 | for every table a choice exists, possibly none, and it is the one the scan finds |
| Capacity.AssignAdmits | cluster/cluster_service.py:1099-1193 | after a successful assignment the chosen node outranks every other eligible node and its unexpired recordings and running detectors are within its limits in all five dimensions; a capacity refusal means no node was eligible, an isolation refusal that the chosen node was fenced; refusals change nothing |
| Capacity.RecordingsStayWithinLimits | cluster/cluster_service.py:1126-1215 | along every run whose renewals find unexpired rows and whose reports do not shrink limits, each node's unexpired recordings stay within its current limits |
| Fencing.AssignKeepsInv | cluster/cluster_service.py:1104-1119 | a grant keeps the lease invariant: every entry of a node that is not the holder, published, in its working copy or on its way, expired before the holder got the key |
| Fencing.RequestKeepsInv | cluster/cluster_service.py:1195-1215 | a renewal whose reply is on the way, or refused, keeps the lease invariant |
| Fencing.ReportKeepsInv | cluster/cluster_service.py:1576-1594 | so does a report by a node that has no unexpired entry left, although it frees the key at once |
| Fencing.AgentStepKeepsInv | cluster/node_agent.py:440-467 | synchronizing, taking a reply however late, publishing and abandoning a snapshot keep the lease invariant |
| Fencing.StepKeepsInv | cluster/cluster_service.py:1065-1215 | every step of controller, agents and clocks keeps rows, owners, entries and catalog consistent |
| Fencing.RunKeepsInv | cluster/cluster_service.py:1065-1215 | so does every run |
| Fencing.PassingIsHolder | nvr/nvr_service.py:645-652 | whatever the clocks, an entry that passes the check at a time not before the present holder's grant is the holder's |
| Fencing.OldHolderIsFenced | nvr/nvr_service.py:636-655 | in every run a node that passes the recorder's check is the holder, or less than `lag` seconds have passed since the holder was granted the key, where `lag` bounds how far its clock is behind |
| Fencing.AtMostOneRecorder | nvr/nvr_service.py:645-652 | in every run, with clocks that do not lag, at most one node passes the check for a camera and profile, and it is the holder |
| Fencing.GenerationsNameOneHolder | cluster/cluster_service.py:1104-1119 | along any continuation of any run a key keeps its row, its generation never decreases, and a change of holder comes with a larger generation |
| Fencing.OwnersHeld | cluster/cluster_service.py:1108-1119 | every recorded owner of a generation really held the key with it at some moment of the run |
| Fencing.CatalogRowsAreOwned | cluster/cluster_service.py:1636-1661 | in every run each catalog row not marked as a conflict was filed by a node that held the key with that generation, however the key moved afterwards |
| LeaseEffects.RevokedNodeStops | cluster/cluster_service.py:1065-1080 | in every run, after a revocation and in every continuation in which the node is not admitted again: no row of the node is active, every renewal by it is stale, no assignment goes to it, and by its own clock it passes the recorder's check no longer than until the isolation deadline it had, at most 150 seconds after the revocation |
| LeaseEffects.LeaseIsExclusive | cluster/cluster_service.py:1104-1119 | after a grant or a renewal nobody else gets the key for 150 seconds, whatever happens, unless the holder reports a result |
| LeaseEffects.ReportFreesKey | cluster/cluster_service.py:1576-1594 | after an accepted result, in every continuation without a new grant, nobody can renew the key and no assignment of it finds it isolated |
| LeaseEffects.GrantedNodeRecords | cluster/node_agent.py:436-461 | a node that is granted a key and synchronizes passes the check until 150 seconds after the grant by its clock, with any steps of others in between |
| LeaseEffects.RenewedNodeRecords | cluster/node_agent.py:448-461 | a holder that renews passes the check until 150 seconds after the controller took the renewal, however late the reply is |
| LeaseEffects.RefusedRenewalEndsWork | cluster/node_agent.py:448-453 | a refused renewal leaves the agent nothing to publish from this round, with any steps of others before the reply, and what it published before stays |
| LeaseEffects.FiledRowsAreMarked | cluster/cluster_service.py:1636-1661 | the last report of a batch about an id decides its row, which is in conflict exactly if the node said so or does not hold the key with that generation |
| LeaseEffects.ConflictsAreCounted | cluster/cluster_service.py:1630-1664 | the conflict count is the number of reports whose key the node does not hold with their generation |
| FencingLimits.LaggingClocksOverlap | nvr/nvr_service.py:647-652 | for every positive lag there is a run in which no clock lags more and the old holder still passes the check together with the new one `lag - 1` seconds after the grant, so the bound is tight |
| FencingLimits.ReportOverlapsExactly | cluster/cluster_service.py:1576-1594 | in every reachable world, an accepted report can be followed by two nodes passing the check on clocks that do not lag if and only if the reporter still had an unexpired entry, published, in its working copy or on its way |
| FencingLimits.ReportBeforeDropOverlaps | cluster/cluster_service.py:1583-1588 | there is a run with such a report, after which two nodes pass the check at once |
| AgentRounds.PublishedEntriesAreLive | cluster/node_agent.py:457-461 | every entry a round newly publishes was active and unexpired on the node's clock when the reply was read |
| AgentRounds.LostControllerClearsSnapshot | cluster/node_agent.py:475-481 | after rounds of which none succeeded, spanning 120 seconds, the published snapshot is empty |
| AgentOutcomes.ShortOutageKeepsSnapshot | cluster/node_agent.py:475-480 | any number of failed rounds judged less than 120 seconds after the first failure leave the snapshot of the last round that published |
| AgentOutcomes.RoundMeans | cluster/node_agent.py:422-481 | one round: it fails unless it publishes and catalog and detector work go well; only a failed round 120 seconds or more after the first failure empties the snapshot; any other publishes exactly the active unexpired entries of its payload with their renewed leases, or leaves the snapshot alone; a renewed entry is not due for ten seconds |
| AgentRounds.FailureSticks | cluster/node_agent.py:442-459 | once an entry fails the rest of the entries change nothing |
| AgentProtocol.VisitsFollow | cluster/node_agent.py:442-456 | the visits of a round, with any steps of others at each renewal, are a run of the lease protocol that leaves the round's working copy |
| AgentProtocol.RoundIsRun | cluster/node_agent.py:422-481 | from every reachable world a whole round, with any steps of others while the agent waits, is a run of the lease protocol that leaves the round's snapshot, so the fencing theorems hold of the loop |
| AgentLoop.NodeAgent.Synchronize | cluster/node_agent.py:442-461 | the loop that renews each due entry and keeps the live ones computes the visits of the round, and what it keeps are exactly the active unexpired entries |
| AgentLoop.NodeAgent.RunOnce | cluster/node_agent.py:422-482 | one turn of the loop is one round, of which AgentOutcomes.RoundMeans says what it does |
| DetectorBoard.NextGeneration | cluster/cluster_service.py:1239-1249 | a new detector job gets one more than the largest generation of its key, or one |
| DetectorBoard.FirstQueuedUnique | cluster/cluster_service.py:1400-1401 | the first queued job of a node by creation time and id is unique |
| DetectorBoard.ClaimKeepsInv | cluster/cluster_service.py:1399-1413 | a claim keeps the board's invariant: one claim a job, one grant a job that counts all its frames |
| DetectorBoard.CountKeepsInv | cluster/cluster_service.py:1370-1375 | so does counting a frame |
| DetectorBoard.ReportKeepsInv | cluster/cluster_service.py:1488-1503 | so does a result, which revokes the job's grant |
| DetectorBoard.StepKeepsInv | cluster/cluster_service.py:1235-1507 | so does every step |
| DetectorBoard.RunKeepsInv | cluster/cluster_service.py:1235-1507 | so does every run |
| DetectorBoard.OneClaimOneResult | cluster/cluster_service.py:1391-1503 | in every run a job is claimed at most once, gets at most one result and at most 60 counted frames, and has a result exactly when it is finished |
| DetectorBoard.OneJobPerGeneration | cluster/cluster_service.py:1239-1249 | in every run a key and generation name one detector job |
| DetectorBoard.FrameStep | cluster/cluster_service.py:1370-1375 | a frame is counted only for a running job, only by finishing a request admitted for it, one at a time |
| DetectorBoard.NoFrameAfterResult | cluster/cluster_service.py:1319-1375 | after a result the job never changes and no frame of it is counted, though frames are fetched outside the lock |
| DetectorBoard.ClaimTakesOldest | cluster/cluster_service.py:1394-1413 | a claim takes the node's oldest queued job for thirty seconds with a fresh grant of sixty frames and sixty seconds, forgets exactly the grants that ran out or were revoked, and changes no other job |
| DetectorBoard.JobIsServed | cluster/cluster_service.py:1391-1507 | while its lease lasts a job stays the node's and its grant live, whatever others do, until the node's own result |
| DetectorBoard.ServingStep | cluster/cluster_service.py:1420-1435 | so does every step, and a renewal in time gives thirty seconds more to the job and its grant |
| DetectorBoard.DeadGrantStaysDead | cluster/cluster_service.py:1420-1435 | a grant that ran out or was revoked is not brought back by any step |
| DetectorBoard.AdmittedFrameCounts | cluster/cluster_service.py:1319-1375 | a frame request that is admitted and finished under a live grant counts one frame, on the job and on the grant |
| DetectorBoard.ResultIsFinal | cluster/cluster_service.py:1488-1503 | in every run an accepted result is what the node reported, for ever, and no frame is admitted for the job again |
| DetectorService.DetectorStore.FindQueued | cluster/cluster_service.py:1400-1403 | the search returns the first queued job of the node, or none when there is none |
| DetectorService.DetectorStore.Claim | cluster/cluster_service.py:1394-1413 | new tables and reply are those of the claim step |
| DetectorService.DetectorStore.Renew | cluster/cluster_service.py:1420-1435 | those of the renewal step, accepted exactly while the lease is held |
| DetectorService.DetectorStore.AdmitFrame | cluster/cluster_service.py:1319-1328 | the check before a fetch admits exactly the valid grants |
| DetectorService.DetectorStore.FinishFrame | cluster/cluster_service.py:1366-1375 | the compare-and-update after a fetch counts exactly when the grant is still valid |
| DetectorService.DetectorStore.ReportResult | cluster/cluster_service.py:1488-1507 | those of the report step, accepted exactly while the lease is held and the digest matches |
| Segments.DeleteKeeps | nvr/nvr_service.py:1557-1566 | a deletion keeps every protected file |
| Segments.MoveKeeps | nvr/nvr_service.py:1007-1032 | so does a migration step, which moves no locked, pinned or leased segment |
| Segments.ProtectedFileSurvives | nvr/nvr_service.py:1085-1096 | no step of any thread removes, moves or rewrites the file of a segment that is locked, pinned or under a live lease |
| Segments.StepKeepsReaders | nvr/nvr_service.py:1268-1284 | every step keeps the reader counters equal to the open pins |
| Segments.StepKeepsExports | nvr/evidence.py:263-278 | every step keeps the resolved sources of unpublished exports pinned, present and unchanged |
| Segments.StepKeepsInv | nvr/nvr_service.py:1057-1330 | every step keeps the catalog's invariant |
| Segments.RunKeepsInv | nvr/nvr_service.py:1057-1330 | so does every run |
| Segments.ReadersArePins | nvr/nvr_service.py:1268-1284 | in every run each reader counter is the number of open pins of the segment |
| Segments.PublishedExportKeepsSources | nvr/evidence.py:343-351 | in every run, publishing an export finds every source row and every source file as resolved, and a locking export leaves all sources locked |
| Segments.LockedEvidenceStays | nvr/nvr_service.py:1216-1220 | locked evidence keeps its file and lock through any run without an unlock of it |
| SegmentEffects.DeletionMeans | nvr/nvr_service.py:1557-1566 | a segment is deleted, row and file, exactly if it is recorded, unlocked and held by no reader and no live lease, and its file is there or was brought back |
| SegmentEffects.MigrationMeans | nvr/nvr_service.py:1005-1032 | a segment that nobody holds is moved exactly if what arrived has the expected digest and size; otherwise the row is marked and the files stay |
| SegmentEffects.LeaseMeans | nvr/nvr_service.py:1305-1318 | a lease is granted exactly if the segment can be read, fewer than 1024 leases are live and fewer than 64 of them the owner's; live leases stay |
| SegmentEffects.LeaseProtects | nvr/nvr_service.py:1286-1326 | until a lease runs out, is released by its owner or the service restarts, the segment's file stays, whatever runs |
| SegmentEffects.ExportPublishesWhatItFound | nvr/evidence.py:263-351 | between the moment its sources are found and its publication, whatever runs: every source row stays recorded, every source file found stays unchanged, and a locking export leaves all of them locked |
| SegmentService.NvrService.SegmentActive | nvr/nvr_service.py:1299-1302 | the activity test holds exactly when a reader or a lease names the segment |
| SegmentService.NvrService.SetLock | nvr/nvr_service.py:1216-1220 | the object follows the lock step; deleted and unknown segments are refused |
| SegmentService.NvrService.ExpirePlaybackLeases | nvr/nvr_service.py:1293-1297 | the loop removes exactly the expired leases |
| SegmentService.NvrService.PinSegments | nvr/nvr_service.py:1269-1274 | the loops check all rows first and then count every id, also repeated ones |
| SegmentService.NvrService.UnpinSegments | nvr/nvr_service.py:1277-1284 | the loop gives every count back and drops counters at zero |
| SegmentService.NvrService.CreatePlaybackLease | nvr/nvr_service.py:1312-1317 | the object follows the lease step, with its capacity limits |
| SegmentService.NvrService.ReleasePlaybackLease | nvr/nvr_service.py:1321-1326 | the object follows the release step: only the owner's lease |
| SegmentService.NvrService.Delete | nvr/nvr_service.py:1557-1566 | the object follows the deletion step: refused for locked or active segments |
| SegmentService.NvrService.RetentionDelete | nvr/nvr_service.py:1085-1096 | the object follows the retention step, which looks again under the lock |
| SegmentService.NvrService.PublishEvidence | nvr/evidence.py:343-351 | the publication transaction locks all sources or, when cancelled, changes nothing |
| Retention.Sweep | nvr/nvr_service.py:1068-1101 | every row's fate follows the rule with its comparisons written out (in use, configured, expired, over a budget, pressure, second look), and the running totals are the sizes of the rows not deleted, overall and per camera |
| Retention.Decide | nvr/nvr_service.py:1073-1096 | the decision computed from the running totals at one row is that of the row-by-row rule |
| Retention.SumByCamera | nvr/nvr_service.py:1069-1071 | the accumulating loop gives every camera the sum of its rows |
| Retention.GlobalBudgetTakesOldestFirst | nvr/nvr_service.py:1082-1096 | when a row is reached with the global budget exceeded, no earlier row was left for being within budget |
| Retention.CameraBudgetTakesOldestFirst | nvr/nvr_service.py:1081-1096 | the same per camera |
| Retention.ExpiredRowsGo | nvr/nvr_service.py:1080-1096 | an expired row of a configured camera that is not in use is never left within budget, and deleted if the second look allows it |
| Retention.OnlyExpiredRowsGo | nvr/nvr_service.py:1080-1096 | a row that is deleted while both budgets are kept and the disk is not under pressure had expired |
| RetentionRun.LooksKeepInv | nvr/nvr_service.py:1072-1098 | with any steps of other threads between its critical sections, every look of a sweep is at a consistent catalog, with the sweep's snapshot in place |
| RetentionRun.FateMeans | nvr/nvr_service.py:1072-1098 | what a row's fate says of its segment: a skipped one was in use, locked or gone and stays as it is; a deleted one had a reason, was neither locked nor in use, and is erased together with its file |
| RetentionRun.ExpiredSegmentGoes | nvr/nvr_service.py:1072-1098 | with any steps of others in between, an expired segment that is unlocked and unused at both looks is erased with its file, or marked missing if its path does not resolve |
| RetentionRun.FreshSegmentStays | nvr/nvr_service.py:1072-1084 | the turn of a segment that has not expired, with both budgets kept and no pressure, changes nothing but leases that ran out |
| RetentionRun.BudgetExceededOnlyByProtectedSegments | nvr/nvr_service.py:1072-1098 | if a budget is still exceeded at the end of a sweep, every segment it covers was in use or locked when it was looked at, of an unconfigured camera, marked missing because its path does not resolve, or erased |
| RetentionRun.SweepExists | nvr/nvr_service.py:1072-1101 | whatever the other threads do there is such a sweep: each decision looks at the past only |
| Migration.EveryMomentIsBacked | nvr/nvr_service.py:1013-1031 | after every write of an attempt the row names a file with the expected digest and size, and the source is gone only once the row names the copy |
| Migration.OthersUntouched | nvr/nvr_service.py:1010-1023 | an attempt touches files of its own key only |
| Migration.CrashesKeepContent | nvr/nvr_service.py:1005-1032 | any number of attempts, each cut after any write, keep the row backed by the same content |
| Migration.AttemptMeans | nvr/nvr_service.py:1005-1032 | an uninterrupted attempt moves the segment exactly if copy and replacement succeed and what was written has the expected digest and size; otherwise the row is marked and the files stay; no partial copy is left |
| Migration.AttemptEndsAsMove | nvr/nvr_service.py:1005-1032 | an uninterrupted attempt ends where the single migration step of the concurrent model does |
| Migration.Migrator.Attempt | nvr/nvr_service.py:1009-1032 | the program passes through exactly these states, and moves exactly when the copy verifies |
| Coverage.Compute | nvr/evidence.py:59-74 | for sorted rows: the intervals have exactly the instants of the range that some row has, the gaps exactly the others, and overlap is reported exactly when two different rows share an instant of the range |
| Coverage.OverlapGrows | nvr/evidence.py:66-71 | comparing with the furthest end so far detects every overlap |
| Coverage.LengthsReach | nvr/evidence.py:61-74 | without holes the lengths add up to the reach exactly when nothing overlaps |
| Coverage.ExactCoverage | nvr/evidence.py:273-275 | with no gaps, the lengths add up to the requested range exactly when there is no overlap, which is what an exact export relies on |
| Timeline.Gaps | nvr/nvr_service.py:1192-1204 | an offline gap meets no healthy segment and is longer than 250 ms or reaches the end; every instant of the range is in a healthy segment, a reported gap or a hole of at most 250 ms; every damaged item is told of with its reason and its part of the range, and nothing else is |
| ExportMachine.StepKeepsInv | nvr/evidence.py:104-250 | every step of submission, cancel, worker, publication and restart keeps the job machine's invariant |
| ExportMachine.RunKeepsInv | nvr/evidence.py:104-250 | so does every run |
| ExportMachine.JobsAgreeWithExports | nvr/evidence.py:169-218 | in every run a job is completed exactly when its exports row exists, an owner's request id names one job, and at most eight jobs are outstanding |
| ExportMachine.CompletedIsFinal | nvr/evidence.py:245-246 | a completed job never changes |
| ExportMachine.CancelledJobNeverPublishes | nvr/evidence.py:192-201 | once a cancel call found a job active, the job is never published, whatever happens afterwards |
| ExportMachine.FailedChangesExactly | nvr/evidence.py:192-201 | a step changes a failed job if and only if it is the write of a cancel call that names the job |
| ExportMachine.FailedIsFinalIff | nvr/evidence.py:192-246 | in every run a failed job stays as it is through all continuations if and only if no pending cancel call names it |
| ExportMachine.FailedJobCanTurnCancelling | nvr/evidence.py:199-200 | a run in which a failed job is overwritten as cancelling and its worker is gone |
| ExportMachine.CancelledJobEndsCancelled | nvr/evidence.py:192-249 | in every run, after a cancel call on a queued or running job completed, without a restart or another cancel of it, the worker is still at the job or it is cancelled, whatever the conversion does |
| ExportMachine.UncancelledJobEnds | nvr/evidence.py:233-249 | in every reachable state a converted job that was not cancelled is published and completed, a failed one is failed, and the worker is idle afterwards |
| ExportMachine.SubmissionIsTakenIff | nvr/evidence.py:178-189 | a submission is taken exactly if the owner's request id is new, the service accepts jobs and fewer than eight are outstanding |
| ExportMachine.DrainingAddsNothing | nvr/evidence.py:122-124 | while the service drains no job is added, in any continuation |
| ExportMachine.RestartInterrupts | nvr/evidence.py:104-111 | a restart interrupts exactly the queued, running and cancelling jobs, after which none is outstanding |
| ExportService.ExportJobs.CountOutstanding | nvr/evidence.py:119-120 | counting the rows one by one gives the number of queued, running and cancelling jobs, in whatever order they come |
| ExportService.ExportJobs.Find | nvr/evidence.py:179-183 | the search finds the job of an owner and request id, if there is one |
| ExportService.ExportJobs.Submit | nvr/evidence.py:178-189 | the object follows the submission step and the reply says which of the four outcomes it was |
| ExportService.ExportJobs.BeginCancel | nvr/evidence.py:193-198 | the object follows the read half of a cancel, which sets the event |
| ExportService.ExportJobs.EndCancel | nvr/evidence.py:199-201 | and its write half |
| ExportService.ExportJobs.ClaimNext | nvr/evidence.py:222-229 | the worker takes the oldest queued job and registers its event |
| ExportService.ExportJobs.Publish | nvr/evidence.py:343-351 | publication happens exactly when the event is not set, and then completes the job and records the export together |
| ExportService.ExportJobs.StoreVerdict | nvr/evidence.py:244-246 | the lock-free failure update, which spares completed jobs |
| ExportService.ExportJobs.ForgetEvent | nvr/evidence.py:247-249 | the worker lets go of the job's event |
| PtzSessions.StepKeepsInv | camera/camera_registry.py:2930-2955 | every step of every thread keeps entries, counters and the lock's holder consistent |
| PtzSessions.OneThreadInside | camera/camera_registry.py:2943-2951 | in every run at most one thread a camera is inside a session |
| PtzSessions.EntriesFollowUsers | camera/camera_registry.py:2935-2955 | in every run a camera has an entry exactly while it has users, all its users share that entry, and the entry's counters are the numbers of users and stop users |
| PtzSessions.MovementSeesNoStop | camera/camera_registry.py:2946-2949 | a movement that holds the lock gets inside exactly when no stop is pending for the camera |
| PtzSessions.ArrivalIsLetIn | camera/camera_registry.py:2935-2942 | in every run a stop is always let in to wait, a movement exactly if no stop is in a session of the camera |
| PtzSessions.WaitingGetsLock | camera/camera_registry.py:2943-2949 | in every run a waiting thread gets the lock exactly if no thread of the camera has it, and a stop then goes inside |
| PtzSessions.LeavingFrees | camera/camera_registry.py:2951-2955 | in every run whoever leaves the block leaves nobody holding the camera's lock, and then is gone |
| PtzGuard.SessionTable.Arrive | camera/camera_registry.py:2935-2940 | the object follows the arrival step: a movement is turned away while stops are pending |
| PtzGuard.SessionTable.TryAcquire | camera/camera_registry.py:2943-2945 | the object follows the lock's acquisition |
| PtzGuard.SessionTable.Admit | camera/camera_registry.py:2946-2948 | the second check, after acquiring |
| PtzGuard.SessionTable.Unlock | camera/camera_registry.py:2951-2951 | the object follows the release |
| PtzGuard.SessionTable.Depart | camera/camera_registry.py:2952-2955 | the object follows the departure, which deletes the entry of the last user |
| AutoStop.StepKeepsInv | camera/camera_registry.py:2963-3099 | every step of movements, stops and timer callbacks keeps the timer table's invariant |
| AutoStop.GuardLostExactly | camera/camera_registry.py:2984-3006 | a step loses the guard of a dispatched movement if and only if the registered automatic Stop ends in an exception its callback does not handle, the audit of its failed Stop fails, or the timer that just replaced it cannot be started |
| AutoStop.MovementIsGuarded | camera/camera_registry.py:2984-3006 | in every run without such a step, a dispatched continuous movement that was not stopped or superseded has a live registered timer, a running automatic stop, a movement in flight, or a recorded failure |
| AutoStop.ReturnedMovementIsArmed | camera/camera_registry.py:3075-3095 | when a continuous movement was accepted or refused, a stop timer is registered and armed, however long the camera took, if a timer can be started |
| AutoStop.ReplacedForEver | camera/camera_registry.py:2999-3005 | a timer that is no longer registered is never registered again, in any continuation |
| AutoStop.ReplacedNeverSends | camera/camera_registry.py:2987-2989 | and never sends Stop |
| AutoStop.NothingOldStops | camera/camera_registry.py:2975-2978 | in every run, after an accepted movement of another kind, a successful Stop or a successful automatic Stop, nothing is registered and nothing owed, and no timer from before sends a Stop in any continuation |
| AutoStop.CancelledNeverFires | camera/camera_registry.py:2999-3005 | a timer that a new one or a Stop cancelled never fires, in any continuation |
| AutoStop.DueTimerStops | camera/camera_registry.py:2984-2996 | a registered timer fires when it is due and not before, and its accepted Stop leaves nothing owed and nothing registered |
| AutoStop.DebtChangesExactly | camera/camera_registry.py:2963-3100 | a stop is owed from the dispatch of a continuous movement until the camera takes a Stop or a movement of another kind, and by no other step |
| AutoStop.EscapedStopLeavesMovement | camera/camera_registry.py:2991-2996 | a run that ends with an owed stop, no recorded failure and no timer left to send it, because the Stop ended in an unhandled exception |
| AutoStop.FailedAuditLeavesMovement | camera/camera_registry.py:2991-2996 | another, because recording the failure failed |
| AutoStop.FailedStartLeavesMovement | camera/camera_registry.py:2999-3006 | another, because the timer that replaced the armed one could not be started |
| AutoStop.AbandonedForEver | camera/camera_registry.py:2984-3013 | from such a world no continuation without a new command sends the stop or records the failure |
| StopTimers.TimerTable.CancelPrevious | camera/camera_registry.py:3003-3004 | the object follows the cancellation of a replaced timer, which only helps while it has not fired |
| StopTimers.TimerTable.Schedule | camera/camera_registry.py:2999-3005 | registering a new timer cancels the one it replaces |
| StopTimers.TimerTable.Start | camera/camera_registry.py:3006-3006 | the timer starts after it was registered, or raises and stays registered without ever running |
| StopTimers.TimerTable.PopAndCancel | camera/camera_registry.py:2975-2978 | the object follows the step after a successful Stop, and that of an accepted movement of another kind: nothing is registered, and a timer that has not fired is cancelled |
| StopTimers.TimerTable.Registered | camera/camera_registry.py:2987-2989 | the callback's test holds exactly for the registered timer |
| StopTimers.TimerTable.Finish | camera/camera_registry.py:2993-2996 | the callback unregisters itself only |
| PreferenceMerge.MergePreference | cluster/cluster_service.py:157-171 | the loop over the keys computes the key-by-key merge, for any order of the keys |
| PreferenceMerge.MergeKey | cluster/cluster_service.py:161-170 | one turn settles its key and changes no other |
| PreferenceMerge.SaveOntoBaseline | cluster/cluster_service.py:157-171 | saving onto the unchanged baseline, or where the stored value is not an object, gives the editor's document |
| PreferenceMerge.SaveWithoutEdit | cluster/cluster_service.py:166-167 | saving without an edit gives the stored document |
| PreferenceMerge.MergePathwise | cluster/cluster_service.py:157-171 | at every path: what the editor added, removed or replaced is as in the editor's document, what the editor kept is as stored, and above a change there is an object |
| PreferenceMerge.CompatibleEditsCommute | cluster/cluster_service.py:157-171 | compatible edits of one baseline commute on every stored document |
| PreferenceMerge.CommuteOnlyIfCompatible | cluster/cluster_service.py:157-171 | two edits commute from the baseline if and only if they are compatible |
| PreferenceMerge.FirstEditSurvives | cluster/cluster_service.py:157-171 | what the first of two compatible edits decided is in the result |
| PreferenceMerge.SecondEditSurvives | cluster/cluster_service.py:157-171 | what the second decided always is |
| PreferenceMerge.UntouchedSurvives | cluster/cluster_service.py:157-171 | what neither touched keeps its stored value |
| PreferenceMerge.ConflictHasPath | cluster/cluster_service.py:157-171 | edits that are not compatible decide a common path |
| PreferenceMerge.DisjointEditsCommute | cluster/cluster_service.py:157-171 | edits that decide no path in common are compatible and commute |
| PreferenceMerge.RemoveThenWithout | cluster/cluster_service.py:194-199 | removing one path and then a set is removing the larger set |
| PreferenceMerge.RemoveMonitorFields | cluster/cluster_service.py:189-200 | removing a list of paths gives the document without the fields at those paths, so order and repetitions do not matter |
| PreferenceMerge.PartialWithRemovalsIsFull | cluster/cluster_service.py:737-746 | a partial save with the fields the editor dropped as removal list stores what a full save stores |
| PreferenceMerge.PartialKeepsTheRest | cluster/cluster_service.py:157-171 | a partial save keeps what is stored at every path the editor's document leaves out, at its end or above it |
| PreferenceMerge.WithoutPathwise | cluster/cluster_service.py:189-200 | after a removal exactly the paths are left of which no beginning was removed, with their values |
| DiskTree.RunKeepsWellFormed | backup/preupgrade_guard.py:179-210 | every sequence of disk operations leaves every entry in a directory |
| UpgradeGuard.EnsureAllRuns | backup/preupgrade_guard.py:201-205 | making a directory with its parents succeeds where nothing is in the way and changes nothing else |
| UpgradeGuard.SaveAllRuns | backup/preupgrade_guard.py:153-165 | copying the sources, all of which can be copied, succeeds in any order and leaves a snapshot of exactly them and their directories, and the active tree as it was |
| UpgradeGuard.SaveAllStops | backup/preupgrade_guard.py:73-83 | a database that cannot be copied stops the copying |
| UpgradeGuard.ClearsRun | backup/preupgrade_guard.py:184-198 | clearing depth first empties everything outside the backup directory but the marker: each directory is empty when its turn comes |
| UpgradeGuard.ClearsStop | backup/preupgrade_guard.py:190-191 | a link or device outside the backup directory stops the clearing |
| UpgradeGuard.RestoreAllRuns | backup/preupgrade_guard.py:199-206 | restoring into a tree with nothing but snapshot entries succeeds and adds every entry, in any order |
| UpgradeGuard.RollbackRestores | backup/preupgrade_guard.py:179-208 | an uninterrupted rollback completes if and only if no link or device is outside the backup directory, and then the tree outside it is exactly the snapshot and the marker is gone |
| UpgradeGuard.RollbackLeaves | backup/preupgrade_guard.py:184-207 | short of its last operation a rollback changes neither the marker nor the backups |
| UpgradeGuard.PrepareCompletes | backup/preupgrade_guard.py:135-176 | an uninterrupted preparation completes exactly when there is no link or device, every database is sound and its names are free; its own verification passes, the marker names a backup of the original files, of each database with the commits of its write-ahead log, and those are still in place |
| UpgradeGuard.PrepareLeaves | backup/preupgrade_guard.py:143-172 | until the marker is in place nothing outside the backup directory changes but the marker's temporary file |
| UpgradeGuard.CommitLeaves | backup/preupgrade_guard.py:211-222 | wherever a commit stops, marker and backup are intact, or the marker is gone and the schema is marked ready |
| UpgradeGuard.RollbackKeepsInv | backup/preupgrade_guard.py:179-208 | a rollback cut anywhere keeps the guard's invariant |
| UpgradeGuard.PrepareKeepsInv | backup/preupgrade_guard.py:135-176 | so does a preparation cut or failed anywhere, with its backup partly removed |
| UpgradeGuard.CommitKeepsInv | backup/preupgrade_guard.py:211-222 | so does a commit cut anywhere |
| UpgradeGuard.RunKeepsInv | backup/preupgrade_guard.py:135-222 | so does every run of preparations, migrations, rollbacks and commits |
| UpgradeGuard.AlwaysRecoverable | backup/preupgrade_guard.py:135-222 | at every moment of every run the schema is marked ready, or the marker names a complete verified backup of the original files, or the original files are in place |
| UpgradeGuard.RollbackRecoversOrigin | backup/preupgrade_guard.py:179-208 | after every run that left the marker, one uninterrupted rollback brings the original files back unless a link or device is in the way; no write-ahead log is left, so each database reads as it did with its log |
| UpgradeGuard.InterruptionsProtect | backup/preupgrade_guard.py:184-207 | interrupted rollbacks and writes in between, in any number, do not change marker or backups |
| UpgradeGuard.RestartedRollbackRestores | backup/preupgrade_guard.py:179-208 | so the rollback that completes leaves exactly the snapshot that was there before the first one |
| GuardOutcomes.SnapshotHolds | backup/preupgrade_guard.py:135-176 | after a complete preparation the snapshot has exactly the saved files as they are stored, the marker names it, and the files are still in place |
| GuardOutcomes.PreparationMeans | backup/preupgrade_guard.py:135-176 | an uninterrupted preparation completes exactly if nothing but files and directories is anywhere in the tree, backups included, every saved file can be stored, and its own names are free |
| GuardOutcomes.CapturedMeans | backup/preupgrade_guard.py:73-83 | a file is stored as it is, but a database with the newest of its own and its log's commits, and not at all when it is not sound |
| GuardOutcomes.DamagedIsRefused | backup/preupgrade_guard.py:86-132 | a rollback or commit whose marker is not in order, or whose backup has a missing, changed, unsafe, unsound or undeclared file, changes nothing |
| GuardOutcomes.RollbackMeans | backup/preupgrade_guard.py:179-208 | a rollback with marker and backup in order completes exactly when nothing but files and directories is outside the backups, and then every path is as in the snapshot, the backups are as they were and the marker is gone |
| GuardOutcomes.CommitMeans | backup/preupgrade_guard.py:211-222 | a commit completes exactly when marker and backup are in order and the ready marker can be written, and changes nothing but the two markers |
| GuardProgram.ConfigRoot.Do | backup/preupgrade_guard.py:190-208 | one disk operation on the tree, unless the machine has stopped |
| GuardProgram.ConfigRoot.Walk | backup/preupgrade_guard.py:184-184 | the walk lists every path once, deeper ones first |
| GuardProgram.ConfigRoot.Sources | backup/preupgrade_guard.py:45-70 | the walk lists exactly the files that are saved |
| GuardProgram.ConfigRoot.Verify | backup/preupgrade_guard.py:86-117 | the verification holds exactly when the manifest lists the snapshot's files with their contents and the databases among them pass the integrity check |
| GuardProgram.ConfigRoot.Rollback | backup/preupgrade_guard.py:179-208 | the program is the rollback event cut where the machine stopped; success means the snapshot is restored, failure on a running machine means a bad marker, a bad backup, or a link or device |
| GuardProgram.ConfigRoot.SaveFiles | backup/preupgrade_guard.py:153-165 | the copying loop runs its script, in which an unsound database raises, and notes exactly the saved files as their copies hold them |
| GuardProgram.ConfigRoot.Prepare | backup/preupgrade_guard.py:135-176 | the program is at most a rollback event and a preparation event; nothing happens when the schema is ready; on a running machine it fails only if the rollback or the preparation does |
| GuardProgram.ConfigRoot.PrepareNow | backup/preupgrade_guard.py:143-176 | the program is the preparation event; success leaves a verified marker; on a running machine it fails only if the uninterrupted preparation does, and leaves nothing of the new backup |
| GuardProgram.ConfigRoot.Commit | backup/preupgrade_guard.py:211-222 | the program is the commit event; success with a marker leaves the schema ready and the marker gone; on a running machine it fails only if the uninterrupted commit does |
| BackupStream.Value32OfLength32 | backup/encrypted_backup.py:90-90 | the four length bytes read back as the length written |
| BackupStream.ReadFrame | backup/encrypted_backup.py:106-120 | a frame written in a state is read back in that state, with its tag |
| BackupStream.SealedOpens | backup/encrypted_backup.py:79-121 | the reader's loop inverts the writer's loop and rejects whatever follows the final chunk |
| BackupStream.CutSealedIsRejected | backup/encrypted_backup.py:105-123 | the reader's loop rejects the frames cut at any byte, having written only a beginning of the input |
| BackupStream.RoundTrip | backup/encrypted_backup.py:71-123 | decrypting an encrypted stream gives the input back for every input but the empty one |
| BackupStream.AppendedIsRejected | backup/encrypted_backup.py:106-107 | bytes after the final chunk are a framing error |
| BackupStream.CutIsRejected | backup/encrypted_backup.py:94-123 | every proper beginning of an encrypted stream is rejected, and what was written until then is a beginning of the input |
| BackupStream.OnlyTheWholeIsAccepted | backup/encrypted_backup.py:94-123 | among the streams that agree with an encrypted one as far as both go, exactly that one is accepted |
| AcceptedStreams.AcceptedIff | backup/encrypted_backup.py:94-123 | of all streams, whoever wrote them, exactly those are accepted that begin with the magic and a header the cipher accepts and go on as framed chunks that pull in order, the last one and no other tagged as final; and what is written is their text |
| AcceptedStreams.SealedLength | backup/encrypted_backup.py:79-92 | the frames of an input are as long as the input and, for each mebibyte begun, what a frame adds |
| BackupStreamProgram.Encrypt | backup/encrypted_backup.py:71-92 | the loop with its look-ahead read writes exactly the encrypted stream, and nothing for a key of the wrong size |
| BackupStreamProgram.Decrypt | backup/encrypted_backup.py:94-104 | the program's verdict and output are those of the stream's decryption, errors included |
| BackupStreamProgram.DecryptFrames | backup/encrypted_backup.py:104-123 | the loop's verdict and output are those of reading frame by frame |
| ByteRange.NumberOfDecimal | nvr/nvr_service.py:1663-1667 | a position written in decimal reads back as that position |
| ByteRange.ParseWritten | nvr/nvr_service.py:1659-1668 | every range whose header is short enough is parsed as itself |
| ByteRange.ParseIff | nvr/nvr_service.py:1659-1668 | a header asks for a range exactly if it is the unit, digits, a hyphen and digits, with digits on one side, in 128 characters at most |
| ByteRange.DecideIsSelection | nvr/nvr_service.py:1661-1670 | the answer is partial exactly when some position is asked for, and then covers exactly the positions asked for |
| ByteRange.WhatIsSent | nvr/nvr_service.py:1661-1699 | the body is the file from a position on, between two, or its last bytes, as far as there are any; if there are none the range is refused |
| ByteRange.DecideMeetsStandard | nvr/nvr_service.py:1661-1670 | for valid ranges the answer is partial exactly when section 14.1.2 of RFC 9110 calls the range satisfiable, except for a suffix of an empty file |
| ByteRange.WholeOnlyWithoutHeader | nvr/nvr_service.py:1659-1678 | the whole file is sent exactly when there is no header; other forms, also unknown units, are refused |
| ByteRange.PiecesMakeTheFile | nvr/nvr_service.py:1679-1699 | the answers to consecutive ranges, however the file is cut, put the file together again |
| ByteRange.SentIsBody | nvr/nvr_service.py:1679-1699 | on a file of its announced size the bytes sent are the body, and Content-Length is their number |
| ByteRange.SendFile | nvr/nvr_service.py:1628-1699 | status, Content-Length, Content-Range and the bytes sent agree with the answer, and the transfer fails exactly when the file has become too short |
| ByteRange.SendBlocks | nvr/nvr_service.py:1689-1699 | the block loop sends the next bytes of the file up to the announced number |

## Left out

- HTTP routing, JSON and regular-expression validation, SQL text and schema migration: requests are typed values and tables are maps; ids are natural numbers where only their order matters.
- ffmpeg, ONVIF/SOAP, sockets, TLS, certificates, password hashing and libsodium's internals: outcomes are parameters, and digests identify contents.
- Access control, event rules, MQTT, the archive queue, the probe cache, supervisors and the C++ and shell parts: bound by input and output, or easier than what is here.
- Clocks: the timestamp is read before the lock is taken, so the controller's steps are taken to see nondecreasing time. Node clocks are arbitrary.
- Floating point: costs and scores are reals, and the node hash that breaks ties is an arbitrary function.
- Capacity.RecordingsStayWithinLimits: says nothing of runs with late renewals or of detector jobs still queued, which the code does not count; admission itself is unconditional.
- Fencing.StepKeepsInv: a job result is a step of a node that has no unexpired entry, published, in work or on its way, because the agent never calls that route; FencingLimits.ReportOverlapsExactly says that this condition is the right one.
- AgentLoop.NodeAgent.RunOnce: exceptions other than the agent's own error, which end the agent, are not modelled; which entries lie within the limit of 256 is any subset.
- Segments.ProtectedFileSurvives: does not say that a deleted segment stays deleted, which the source does not promise: a late update of a failed migration can overwrite the state.
- Segments.RunKeepsInv: retention and migration run in one maintenance thread; scrubbing, archiving and quarantine of segments are not modelled.
- ExportMachine.FailedIsFinalIff: a cancel call is pending from its read to its write; that such a call makes its write is the scheduler's matter and not claimed.
- AutoStop.MovementIsGuarded: is about one camera; the rate limit and the camera's own movement timeout are not modelled.
- PtzSessions.OneThreadInside: entries are identified by fresh numbers instead of object identity, and no thread enters a session of a camera from within one, which the source does not do.
- PreferenceMerge.MergePreference: dictionaries are values, so the sharing of nested objects between results, and the copy made for removals to guard against it, are not captured; size and nesting limits are not modelled.
- UpgradeGuard.PrepareCompletes: a database is its last commit and whether it is sound, and an empty one is copied as an empty file; rollback journals, shared-memory files made by reading, file modes and the size limits (an error like any other) are not modelled.
- UpgradeGuard.AlwaysRecoverable: files are compared except leftover temporary markers, which an interrupted preparation or commit can leave and a later preparation then saves; empty directories are not restored by the source.
- BackupStream.RoundTrip: assumes only that pulling inverts pushing; that altered ciphertexts are rejected is the cipher's promise and not claimed. A failing push is not modelled.
- ByteRange.SendFile: entity tags and dates are two conditions of the request, the periodic access check during a transfer is not modelled, and digits are ASCII.
- The remaining controller routes (users, sessions, enrollment, heartbeats) and the NVR's capture loop: they would add easy members only.
