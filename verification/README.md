# Media importer: a verified model

This project models the store of a media importer and proves what its commands guarantee. The
store is a directory of content-addressed blobs and a SQLite catalog of blobs and source files.
Commands can fail or die at any point; the durable state they share is

- the blob files, by the hash in their name (`Domain.Cas`),
- the catalog rows of blobs, with size and deletion mark, and of source files, by root and path
  (`Catalog.Tables`).

The durable invariant (`Catalog.Durable`) says that every source row names a blob row of equal
size, and that every blob row has its file at that size or is both marked and unreferenced.

Check everything with `dafny verify dfyconfig.toml`.

## Modules

| files | component |
|---|---|
| `Domain`, `Catalog`, `HashText` | shared values, the SQL statements, hash texts |
| `GcPlan`, `GcApply`, `GcApplyPlan`, `GcOutcome`, `GcSafety`, `GcConvergence` | two-phase garbage collector: plan and preflight, the apply machine with a fault at every step, its loops, what each script of faults leaves, safety, convergence |
| `History` | whole histories of imports and collections |
| `WriterSpec`, `WriterProofs`, `CatalogWriter`, `CollectorWriter` | catalog writer: specification, refinement, the loop, the collector as its client |
| `Scheduler`, `ImportLog`, `Executor`, `ExecutorPlaces`, `ImportReport`, `ExecutorReport`, `ExecutorRuns`, `DryRun`, `ImportRepair` | import executor: dispatch rule, records, interleaved steps, invariants, results, dry run, imports into damaged stores |
| `Cancellation` | worker cancellation protocol |
| `TelemetryLedger`, `Telemetry`, `TelemetryThreads` | bounded telemetry transport |
| `Paths`, `BrowseTree`, `BuildTree`, `TreeApply`, `BuildRuns` | link texts, browse-tree planning and application |
| `CasInspect`, `Audit`, `Diagnosis`, `Hashing`, `MapSum` | store walk, audit, what findings mean, chunked hashing, sums over maps |

## Assumptions

- The run lock keeps other cooperating commands away; a crash is the death of the process, not a
  loss of power, so a completed file-system call and a committed transaction survive it.
- The hash function is not modelled beyond being incremental; equal digests mean equal content
  among the scanned files and equal sizes between them, the store and the catalog
  (`ImportLog.Static`); a stored blob may be corrupt at its size. `Static` also says that files do
  not change while they are read and that a scan yields each path once. Bounds, accounting and
  termination of an import do not need it, and `ImportRepair` assumes only unique
  paths and, for the next import, that source and blob rows agree.
- A transaction is a staged copy of the tables that is committed or discarded as a whole.
- A file system answers truthfully or with an error (`GcPlan.Truthful`).

Where a property holds only under a condition, the condition is proved exact:

- `GcSafety.ReportsAreExactIff` and `GcSafety.EarlyAbortsAreHarmlessIff`: the reply to a commit can
  be lost when every commit is followed by a checkpoint. Both are about the outcome of
  `apply_plan`. The command always uses the default cadence of eight; with cadence one it would
  return the writer's error in place of that outcome.
- `GcSafety.QuietPreflightCoversIff`, `GcConvergence.CompleteRunEffect` and
  `GcConvergence.RecoveryConverges`: the preflight stats an absent sweep twice, and a failure of the
  second stat drops the sweep without a finding (`GcSafety.FailedSecondStatSkipsSweep`). Safety,
  durability and histories hold either way; only completeness and convergence need the second stat.
- `Diagnosis.AuditAccusesTruly`: after an incomplete walk the audit reports a file that its stat
  finds as missing (`Diagnosis.AuditMayCallPresentMissing`); it then reports the walk as well.
- `TelemetryLedger.CoalescingIsExactIff`: byte counts carried by a finished file would be lost when
  it is coalesced; the importer sends them as separate deltas.

The comment on `coalesce_worker_fact` promises that every dashboard total is preserved; the model
follows the code, which preserves them on the last of these conditions.

## Model

| member | source | states |
|---|---|---|
| `Catalog.ApplyRequestMeaning` | crates/media-importer/src/catalog.rs:1470-1639 | An import record is accepted exactly when its two halves agree with each other and with the rows there are; an accepted record writes exactly its blob row (unmarked) and its source row (seen count one higher), nothing else, and its outcome says whether each row is new |
| `Catalog.ApplyRequestKeepsDurable` | crates/media-importer/src/catalog.rs:1470-1639 | A record whose file is installed keeps the durable invariant, also when it revives a marked row; a repeat observation needs no file of its own |
| `Catalog.ApplyAllSplits` | crates/media-importer/src/catalog.rs:2194-2280 | Two transactions in a row have the effect and the outcomes of one longer sequence of records |
| `Catalog.ApplyAllKeepsDurable` | crates/media-importer/src/catalog.rs:2194-2280 | A whole batch of records with installed files keeps the durable invariant |
| `HashText.TextOrderIsNumberOrder` | crates/media-importer/src/paths.rs:8-23 | Lower-case hexadecimal texts of one width order exactly as the numbers they spell, so hashes may be compared as numbers |
| `HashText.WalkIsTruthful` | crates/media-importer/src/store.rs:335-354 | Carried over to numbers, the directory walk lists only files that are on disk, all of them when complete, reports when it is not, and finds nothing if and only if everything in the store is in place |
| `HashText.QuietMeansLaidOut` | crates/media-importer/src/gc.rs:610-615 | Neither a quiet preflight nor a clean audit overlooks a malformed store |
| `GcPlan.BuildPlan` | crates/media-importer/src/gc.rs:774-807 | From the rows in any order: the rows sorted by hash, each once, and three plan lists that hold every row of their kind, each once, in hash order; the reachable counter counts the referenced rows |
| `GcPlan.ReachableIsReferenced` | crates/media-importer/src/gc.rs:774-807 | The reachable counter is the number of blob rows that a source row names |
| `GcPlan.SnapshotExists` | crates/media-importer/src/gc.rs:774-807 | Every catalog has a sorted snapshot |
| `GcPlan.PartsAreUnique` | crates/media-importer/src/gc.rs:774-807 | A snapshot has only one plan |
| `GcPlan.FindOrphans` | crates/media-importer/src/gc.rs:617-631 | Stray files are reported exactly when the walk is complete |
| `GcPlan.RunPreflight` | crates/media-importer/src/gc.rs:610-771 | The preflight loops return exactly the findings of catalog, walk, rows and sweeps, the candidates in plan order and the reclaimable bytes; the two stats of an absent sweep may answer differently |
| `GcPlan.SweepsMatchIff` | crates/media-importer/src/gc.rs:674-771 | After a complete walk, sweeps and candidates correspond one to one in order if and only if the second stat of every sweep that the walk did not list answers that it is absent |
| `GcPlan.QuietMeansSound` | crates/media-importer/src/gc.rs:617-669 | A quiet preflight over a truthful, possibly failing, file system proves that no file is stray and every row is backed or collectable |
| `GcPlan.CleanIsQuiet` | crates/media-importer/src/gc.rs:610-771 | A clean store never blocks a collection: no orphan, every file at its row's size, every unreferenced file intact; referenced blobs may be corrupt, since no collection hashes them |
| `GcPlan.PreflightIsExact` | crates/media-importer/src/gc.rs:610-771 | Without I/O errors the preflight finds nothing if and only if every file has a row of its size, every row without a file is collectable and every collectable file is intact |
| `GcApply.MarkAffectsOne` | crates/media-importer/src/catalog/sql/gc_mark.sql:1-10 | After any prefix of the marks, the next planned mark changes exactly one row |
| `GcApply.ResurrectAffectsOne` | crates/media-importer/src/catalog/sql/gc_resurrect.sql:1-10 | After all marks and any prefix of the resurrections, the next planned resurrection changes exactly one row |
| `GcApply.SweepAffectsOne` | crates/media-importer/src/catalog/sql/gc_sweep.sql:1-9 | After all marks, all resurrections and any prefix of the sweeps, the next planned row deletion deletes exactly one row |
| `GcApply.TablesAfterMeaning` | crates/media-importer/src/gc.rs:834-1047 | Row by row, what any prefix of the plan makes of the catalog |
| `GcApply.StepKeepsInv` | crates/media-importer/src/gc.rs:809-1047 | Every operation of an apply, whether it succeeds, fails, loses its checkpoint or is the last before process death, keeps catalog, staged catalog, files and report at one consistent point of the plan |
| `GcApply.AfterFits` | crates/media-importer/src/gc.rs:809-1128 | So does every sequence of such operations from the beginning of a run |
| `GcApplyPlan.ApplyPlan` | crates/media-importer/src/gc.rs:809-1076 | The apply loops, run against any script of successes, failures and crashes, end in exactly the state that the step machine reaches with that script |
| `GcApplyPlan.AbortApply` | crates/media-importer/src/gc.rs:1078-1128 | The abort path rolls back before the first sweep mutation and commits partially after it, as the step machine does |
| `GcApplyPlan.SweepOne` | crates/media-importer/src/gc.rs:912-1047 | One sweep (revalidate, unlink, sync, delete the row) follows the step machine through every failure |
| `GcOutcome.CommitMeaning` | crates/media-importer/src/gc.rs:1049-1128 | A commit that succeeds, of a whole plan or of what an abort after the first sweep mutation found staged, makes durable every planned mark and resurrection and exactly the row deletions that were carried out, changes no other row, and the report lists and counts exactly these; only a failing checkpoint at cadence one loses the answer |
| `GcOutcome.RollbackMeaning` | crates/media-importer/src/gc.rs:1078-1104 | A rollback happens only when no file was removed and no row deleted, and leaves catalog, store and report as at begin |
| `GcOutcome.FaultRoutes` | crates/media-importer/src/gc.rs:1078-1093 | An operation that fails is followed by a partial commit if a sweep mutation succeeded before it, and by a rollback otherwise |
| `GcOutcome.NothingWithoutCommit` | crates/media-importer/src/gc.rs:1049-1128 | Until a commit succeeds the durable catalog is the one at begin and no action is reported |
| `GcOutcome.FilesGoneWereUnlinked` | crates/media-importer/src/gc.rs:912-1047 | Whatever fails, the files gone are exactly those whose removal succeeded |
| `GcSafety.QuietPreflightPlansWell` | crates/media-importer/src/gc.rs:610-771 | After a quiet preflight, whatever the second stats answered, every candidate is a planned sweep, every present candidate has an identity and a file of its size, every absent one has none, so the missing-identity and wrong-row-count aborts are unreachable |
| `GcSafety.QuietPreflightCoversIff` | crates/media-importer/src/gc.rs:674-771 | Preflight completeness: after a quiet preflight every planned sweep is one candidate, and every collectable row has one, if and only if the second stat of every sweep the walk did not list answers that it is absent |
| `GcSafety.FailedSecondStatSkipsSweep` | crates/media-importer/src/gc.rs:757-763 | A concrete store and truthful answers on which the first stat says absent and the second fails: the preflight is quiet, the sweep is planned and has no candidate |
| `GcSafety.SweepSafety` | crates/media-importer/src/gc.rs:834-1047 | Under every failure pattern, any file gone and any row deleted was marked and unreferenced at the start of the run; nothing marked or resurrected by the run is swept by it; no other file changes |
| `GcSafety.CollectionKeepsDurable` | crates/media-importer/src/gc.rs:912-1128 | After any sequence of successes, failures and crashes the durable invariant holds of what is on disk |
| `GcSafety.CollectionKeepsClean` | crates/media-importer/src/gc.rs:912-1128 | No interruption makes a clean store, whose referenced blobs may be corrupt, unclean |
| `GcSafety.EarlyAbortChangesNothing` | crates/media-importer/src/gc.rs:1078-1104 | A run that ends incomplete before its first sweep mutation leaves catalog and store exactly as at begin |
| `GcSafety.EarlyAbortsAreHarmlessIff` | crates/media-importer/src/catalog.rs:2042-2090 | That holds of every outcome of apply_plan if and only if the checkpoint cadence is not one; the command always uses eight |
| `GcSafety.ReportsAreExact` | crates/media-importer/src/gc.rs:1060-1140 | At any cadence but one, so at the eight that the command always uses, the actions in every outcome of apply_plan are exactly the durable catalog changes |
| `GcSafety.ReportsAreExactIff` | crates/media-importer/src/catalog.rs:2042-2090 | That holds of every outcome of apply_plan if and only if the checkpoint cadence is not one |
| `GcSafety.EveryCommitCheckpointHidesAction` | crates/media-importer/src/catalog.rs:2042-2090 | With cadence one, a concrete run of apply_plan commits a mark, fails its checkpoint and lists no action in its outcome |
| `GcSafety.ReportedBytes` | crates/media-importer/src/gc.rs:110-182 | Reclaimed bytes never exceed unlinked bytes, which never exceed reclaimable bytes; all three are equal in a complete run; the removed-file counter is exactly the number of files gone |
| `GcSafety.ReportedSourceState` | crates/media-importer/src/gc.rs:1211-1223 | A reported sweep says whether its file was there when the run began; other actions say nothing of files |
| `GcConvergence.FaultFreeRunCompletes` | crates/media-importer/src/gc.rs:809-1076 | After a quiet preflight a run without failures completes |
| `GcConvergence.DryRunActions` | crates/media-importer/src/gc.rs:374-419 | The dry-run loops list the actions of the whole plan |
| `GcConvergence.ActionsAreOrdered` | crates/media-importer/src/gc.rs:1060-1072 | The reported actions are sorted by kind and hash without repeats, after any prefix of the plan |
| `GcConvergence.DryRunIsTheRealRun` | crates/media-importer/src/gc.rs:374-419 | A run that completes reports the actions, their order, the bytes and the counts of the dry run |
| `GcConvergence.CompleteRunRows` | crates/media-importer/src/gc.rs:809-1076 | A complete run, from any state, deletes exactly the rows that had a candidate and leaves every other row as its class says: unreferenced rows marked, referenced rows unmarked |
| `GcConvergence.CompleteRunEffect` | crates/media-importer/src/gc.rs:1142-1149 | A complete run leaves the catalog that the classes of the rows say if and only if every collectable row had a candidate, and then files only of the rows left |
| `GcConvergence.TwoCollectionsSettleIff` | crates/media-importer/src/gc.rs:1142-1149 | Two complete collections of a clean store leave exactly the referenced rows, unmarked, with exactly their files, if and only if every collectable row had a candidate in the second |
| `GcConvergence.SettledPlansNothing` | crates/media-importer/src/gc.rs:774-807 | A settled store has an empty plan, and a clean store with an empty plan is settled |
| `GcConvergence.RecoveryConverges` | crates/media-importer/src/gc.rs:757-807 | From any state left by an interrupted collection of a clean store, after two collections that complete the store is settled, and a third plans nothing, if and only if every collectable row had a candidate in the second of them |
| `GcConvergence.RecoveryIsPossible` | crates/media-importer/src/gc.rs:421-503 | After any interrupted collection of a clean store two collections exist that complete and settle it |
| `GcConvergence.CleanStoreCanBeCollected` | crates/media-importer/src/gc.rs:421-503 | Every clean store can be collected: it has a snapshot, a plan and a quiet preflight with a candidate for every collectable row, and a complete run exists and leaves a clean store |
| `History.HistoriesStaySound` | crates/media-importer/src/ingest.rs:1084-1118 | After every step of any mix of imports and collections, with a crash, rollback or partial commit at any step, the durable invariant holds |
| `History.NoRecordedSourceLosesItsContent` | crates/media-importer/src/gc.rs:912-1047 | In every history every recorded source file has its content in the store at its size |
| `History.InterruptedCollectionsStayClean` | crates/media-importer/src/gc.rs:912-1128 | A clean store stays clean through any number of interrupted collections |
| `WriterProofs.EveryRun` | crates/media-importer/src/catalog.rs:1912-2125 | The writer invariant holds in every run, whatever arrives, whenever deadlines pass, whatever fails |
| `WriterProofs.BatchesAreAtomic` | crates/media-importer/src/catalog.rs:2194-2328 | In every run the number of committed records is a cut between batches, no cut lies beyond it, and uncommitted answers are those of one whole failed batch |
| `WriterProofs.BatchingRefinesSequential` | crates/media-importer/src/catalog.rs:2194-2328 | For every arrival order and every way batches are cut, the durable catalog and each ticket outcome equal applying the accepted requests one by one; what is committed always ends where a batch was cut; when a batch fails the durable catalog is exactly the whole batches before it, every ticket of that batch is answered, and without a database fault each is told the first record of the batch that does not apply to that catalog |
| `WriterProofs.CutsDoNotMatter` | crates/media-importer/src/catalog.rs:1918-1985 | Two runs that accepted the same records agree on the catalog and on every answer, however their batches were cut |
| `WriterProofs.CleanShutdown` | crates/media-importer/src/catalog.rs:2101-2123 | On a clean shutdown every accepted ticket is answered Ok, the record counter is their number, and there is one checkpoint per N batches, one per N sessions and a last one |
| `WriterProofs.DeadlinesAreKept` | crates/media-importer/src/catalog.rs:1925-1972 | In every run a turn that finds the deadline passed, or times out, answers every accepted ticket and leaves no batch open; a record that arrives after the deadline never joins the batch before it |
| `WriterProofs.RecordsAreConserved` | crates/media-importer/src/catalog.rs:1947-1985 | Every received record is accepted, or refused while a session is open; at most one is lost, with the writer |
| `WriterProofs.DisconnectEnds` | crates/media-importer/src/catalog.rs:2097-2125 | When every handle is gone the writer ends: an open session is discarded and not durable, otherwise every accepted ticket is answered |
| `WriterProofs.LoopHead` | crates/media-importer/src/catalog.rs:1918-1945 | At the loop head a session excludes pending imports, pending imports and a deadline imply each other, and the batch is below its maximum |
| `WriterSpec.StageMeaning` | crates/media-importer/src/catalog.rs:2399-2450 | A mark of an unmarked, unreferenced row of its size sets exactly that mark, a resurrection of a marked, referenced row clears it, a sweep of a marked, unreferenced row deletes exactly that row; every other case changes nothing |
| `CollectorWriter.WriterServesCollector` | crates/media-importer/src/catalog.rs:1986-2096 | Every run of the collector, whatever fails and wherever it dies, is a session of the writer: both agree on the durable catalog and, while it runs, on the staged one |
| `CollectorWriter.WriterCommitsPlan` | crates/media-importer/src/catalog.rs:2042-2090 | After a served commit, full or partial, the writer holds exactly the planned marks and resurrections and the row deletions that were carried out |
| `CollectorWriter.WriterServesPlan` | crates/media-importer/src/catalog.rs:1986-2096 | Begin, the statements of a whole plan in order, commit: the writer ends with the rows that a complete collection leaves |
| `CatalogWriter.Loop.FlushImports` | crates/media-importer/src/catalog.rs:2194-2328 | The batch loop does to pending, tickets, counters and tables exactly what the specification of a flush says, for every fault |
| `CatalogWriter.Loop.Iterate` | crates/media-importer/src/catalog.rs:1918-2125 | One iteration of the request loop is one step of the specification |
| `CatalogWriter.Loop.ReceiveImport` | crates/media-importer/src/catalog.rs:1947-1985 | Receiving an import record batches it, flushing before or after as deadline and size demand |
| `CatalogWriter.Loop.ReceiveSession` | crates/media-importer/src/catalog.rs:1986-2096 | Receiving a session request flushes, begins, stages, commits or rolls back as specified |
| `Scheduler.Choice` | crates/media-importer/src/ingest.rs:934-949 | The chosen position is the first eligible one of a mount other than the last dispatched, or else the first eligible one; there is none exactly when nothing is eligible |
| `Scheduler.BoundedBypass` | crates/media-importer/src/ingest.rs:927-974 | An item at position i whose mount stays below its limit is dispatched within 2(i+1) successful dispatches, for any number of mounts and any later arrivals |
| `Scheduler.BypassBoundIsTight` | crates/media-importer/src/ingest.rs:940-949 | The bound is reached at every position: for each i some queue and run let 2i+1 dispatches succeed while the item at position i, its mount below the limit, still waits |
| `Scheduler.Coordinator.DispatchReady` | crates/media-importer/src/ingest.rs:927-974 | The loop sends a run of scheduler choices, moves exactly those items from the queue to the workers, and leaves no eligible item unless the worker queue is full |
| `Scheduler.Coordinator.CompleteWork` | crates/media-importer/src/ingest.rs:1046-1068 | A completion takes one from the mount that has one outstanding and forgets an idle mount |
| `ImportLog.LogApplies` | crates/media-importer/src/catalog.rs:1470-1639 | The records of any set of scanned files apply in any order without a refusal, with the row-by-row effect, and each outcome says whether its source row is new |
| `ImportLog.SameRecordsSameTables` | crates/media-importer/src/catalog.rs:1470-1639 | Two catalogs reached by the same records in different orders are equal |
| `ImportLog.ClassificationIsStable` | crates/media-importer/src/ingest.rs:354-396 | Classifying against any catalog and store the run has reached gives the decision of the catalog at its start |
| `ImportLog.DecisionIsExact` | crates/media-importer/src/ingest.rs:1739-1759 | For any catalog and any store a file is skipped if and only if skipping is on, its row has the same size and the same known modification time, its blob row has that size and the store holds the blob at that size; when only the blob is missing or of another size, that is the reason given for reading the file |
| `ImportLog.ReasonsAreTrue` | crates/media-importer/src/ingest.rs:354-396 | The reason given for reading a file is true of it, and none is true of a file that is skipped |
| `ExecutorPlaces.AdmissionDecision` | crates/media-importer/src/ingest.rs:726-786 | At admission the decision is the one of the start of the run and a skip submits the candidate's own record |
| `ExecutorPlaces.KeepsPlaced` | crates/media-importer/src/ingest.rs:696-843 | Every step keeps every scanned file in exactly one of: pending, in flight, submitted |
| `ExecutorPlaces.KeepsBalanced` | crates/media-importer/src/ingest.rs:927-1068 | Every step keeps the per-mount counters equal to the files in flight |
| `ExecutorPlaces.IdleMeansDispatchable` | crates/media-importer/src/ingest.rs:927-974 | With nothing in flight a pending file is dispatched, so the coordinator never waits for nothing |
| `ExecutorPlaces.StepKeepsFlow` | crates/media-importer/src/ingest.rs:696-843 | For every import, also into a damaged store: every step keeps pending and in-flight files distinct, the per-mount counters exact, and slots and tickets within their bounds |
| `ExecutorReport.KeepsCounted` | crates/media-importer/src/ingest.rs:1575-1579 | Every step keeps each report counter equal to the sum of what the files have contributed so far |
| `ExecutorReport.KeepsCredited` | crates/media-importer/src/store.rs:197-228 | Every step credits each created file once: to its worker until received, then to the report |
| `ExecutorRuns.StepKeepsInv` | crates/media-importer/src/ingest.rs:696-843 | Every step of coordinator, worker or writer keeps the whole executor invariant |
| `ExecutorRuns.EveryStateIsBounded` | crates/media-importer/src/ingest.rs:714-800 | For every import, also into a damaged store, in every reachable state active[m] is exactly the mount's files queued, read or completed but unreceived, and at most min(N, 8) for a configured limit of N; pending is at most 64, pending plus active of a mount at most 64 plus its limit, tickets within their limit, completed but unreceived at most 16 |
| `ExecutorRuns.NeverWaitsForNothing` | crates/media-importer/src/ingest.rs:806-815 | For every import, in every reachable state the coordinator blocks on completions only while a file is in flight |
| `ExecutorRuns.EveryStateIsDurable` | crates/media-importer/src/ingest.rs:1084-1118 | In every reachable state what is committed and stored satisfies the durable invariant |
| `ExecutorRuns.EveryRecordIsAccepted` | crates/media-importer/src/catalog.rs:1589-1639 | In every reachable state no submitted record is refused: no known-source update misses its row |
| `ExecutorRuns.FinishedIsComplete` | crates/media-importer/src/ingest.rs:696-843 | A finished run has submitted and committed every candidate exactly once under its own sequence |
| `ExecutorRuns.ScheduleDoesNotMatter` | crates/media-importer/src/ingest.rs:696-843 | Any two finished runs of one import leave the same store, the same catalog and the same report; files seen = skipped + hashed = created + reused = inserted + updated and bytes seen = skipped + hashed |
| `ExecutorRuns.CreatedExactlyOnce` | crates/media-importer/src/store.rs:197-228 | In every run a hash the store did not hold is reported created exactly once, a hash it held never, and no file is overwritten |
| `ExecutorRuns.Progress` | crates/media-importer/src/ingest.rs:696-843 | No reachable unfinished state is stuck |
| `ExecutorRuns.RunsAreFinite` | crates/media-importer/src/ingest.rs:696-843 | Every run of every import over a finite scan ends, within forty steps for each file and for the end of the scan, and three more |
| `ImportRepair.AdmissionIsExact` | crates/media-importer/src/ingest.rs:726-786 | For every import, also into a damaged store, an admitted file is submitted as known exactly under that condition on the committed catalog and the current store, and is queued to be read otherwise |
| `ImportRepair.FinishedImportRestores` | crates/media-importer/src/ingest.rs:696-843 | Whatever blobs were missing before, a finished import leaves every scanned file recorded with its size and modification time and its content in the store at its size |
| `ImportRepair.RescanRepairs` | crates/media-importer/src/ingest.rs:696-843 | After a finished import that scanned every recorded path no recorded source lacks its content |
| `ImportRepair.UnchangedTreeIsSkipped` | crates/media-importer/src/ingest.rs:354-396 | Over any store, and a catalog whose source and blob rows agree, importing an unchanged tree again reads nothing but files without a modification time: in every reachable state every other record is of a known file and no other content has been added |
| `ImportReport.StoreIsDetermined` | crates/media-importer/src/store.rs:197-228 | The old files and the files read determine the store |
| `ImportReport.ReportBalances` | crates/media-importer/src/ingest.rs:1775-1793 | The final report accounts for every file and every byte |
| `DryRun.DryRunImport` | crates/media-importer/src/ingest.rs:1607-1720 | The dry-run loop returns the report that every finished real run gives |
| `DryRun.DryRunPredictsRealRun` | crates/media-importer/src/ingest.rs:1607-1720 | For every worker interleaving the real report equals the dry-run report |
| `Cancellation.StepKeepsInv` | crates/media-importer/src/ingest.rs:1211-1364 | Every step of a worker, the coordinator or the surroundings keeps the ownership of the flag, the order of drops after cancellation and the place of every job |
| `Cancellation.OneMessage` | crates/media-importer/src/ingest.rs:1502-1516 | In every interleaving at most one message is ever sent, and its sender never finds the slot taken |
| `Cancellation.DropsAreAnnounced` | crates/media-importer/src/ingest.rs:1211-1236 | A job is dropped without a completion only if the message is sent, its sender has won the flag, or the coordinator itself has cancelled |
| `Cancellation.LateJobsAreNotRead` | crates/media-importer/src/ingest.rs:1211-1236 | A job taken from the queue after the flag was set is never read |
| `Cancellation.NoLostWakeup` | crates/media-importer/src/ingest.rs:1442-1474 | When the coordinator waits and no worker can step, a completion or a failure message is there for it |
| `Cancellation.WaitingIsAnswered` | crates/media-importer/src/ingest.rs:1299-1474 | While the coordinator waits the workers take a bounded number of steps, panics included, and then it has something to receive |
| `Telemetry.RendererTransport.CoalesceDelta` | crates/media-importer/src/telemetry.rs:276-301 | The field loop adds exactly the counts of a delta event to the waiting increments, or fails on overflow |
| `Telemetry.RendererTransport.CoalesceWorkerFact` | crates/media-importer/src/telemetry.rs:308-354 | A coalesced fact adds exactly its increments; samples and failure notices add none |
| `Telemetry.RendererTransport.FlushDeltas` | crates/media-importer/src/telemetry.rs:399-418 | Flushing while there is room conserves every counter |
| `Telemetry.RendererTransport.DrainPending` | crates/media-importer/src/telemetry.rs:492-526 | Draining conserves every counter and leaves nothing waiting |
| `Telemetry.RendererTransport.Emit` | crates/media-importer/src/telemetry.rs:216-264 | Each emit adds exactly the event's worth to every counter summed over rendered, queued, coalesced and waiting events; a terminal event follows everything that was waiting |
| `Telemetry.RendererTransport.Close` | crates/media-importer/src/telemetry.rs:465-490 | After close everything is rendered and nothing waits |
| `Telemetry.RunCommand` | crates/media-importer/src/telemetry.rs:216-526 | For every sequence of emits and every pace of the renderer, the rendered total of every counter is the emitted total and the terminal event is last |
| `Telemetry.RunCommandForKey` | crates/media-importer/src/telemetry.rs:216-526 | The same for every coalescing key, with no condition on the events |
| `Telemetry.RunCommandForFact` | crates/media-importer/src/telemetry.rs:216-526 | An event that no rule coalesces, and a worker failure notice, is rendered exactly as often as it was emitted |
| `TelemetryLedger.CoalescingIsExactIff` | crates/media-importer/src/telemetry.rs:936-970 | Dashboard totals do not depend on coalescing an event if and only if it is not a hashed file that carries byte counts of its own |
| `TelemetryLedger.AddsIsCounter` | crates/media-importer/src/telemetry.rs:931-1036 | Every additive dashboard field, with all events that add to it, is a counter in the sense of the conservation theorems |
| `TelemetryLedger.UnderFits` | crates/media-importer/src/telemetry.rs:276-354 | Under every coalescing key every event is worth its increments, without condition |
| `TelemetryThreads.InterleavingsConserve` | crates/media-importer/src/telemetry.rs:216-460 | In every interleaving of emitting threads and renderer, each counter over rendered, queued, coalesced and half-emitted events is the total emitted |
| `TelemetryThreads.EveryKeyIsConserved` | crates/media-importer/src/telemetry.rs:216-460 | In every interleaving from an empty transport, what all places hold under a coalescing key is what was emitted under it, with no condition on the events |
| `TelemetryThreads.EveryFactIsConserved` | crates/media-importer/src/telemetry.rs:216-460 | In every interleaving such an event is in all places together as often as it was emitted |
| `Paths.PathComponentsWithoutRoot` | crates/media-importer/src/paths.rs:432-445 | The loop refuses a path exactly when it has a parent component, and otherwise returns the names of the place it leads to |
| `Paths.LexicalNormalize` | crates/media-importer/src/paths.rs:447-474 | The result leads where the path leads, from every directory, and is in normal form (an absolute one has only names, a relative one parent components and then names); it is the path itself if and only if that was in normal form already |
| `Paths.NormalizeKeepsPlace` | crates/media-importer/src/paths.rs:447-474 | Normalising does not change where a path leads, from whichever directory it is read |
| `Paths.NormalizeFixesNormalForms` | crates/media-importer/src/paths.rs:447-474 | Normalising changes a path exactly when it is not in normal form, so it is idempotent |
| `Paths.RelativeSymlinkTarget` | crates/media-importer/src/paths.rs:325-348 | The loops compute the relative text from a directory to a file, and refuse relative inputs |
| `Paths.RelativeTargetLeadsBack` | crates/media-importer/src/paths.rs:325-365 | Round trip: joining the directory and the relative text and normalising gives the target back |
| `Paths.RelativeTargetArrives` | crates/media-importer/src/paths.rs:325-348 | Walking the relative text from the directory arrives at the file |
| `Paths.RelativeTargetIsShortest` | crates/media-importer/src/paths.rs:325-348 | No shorter way up and down leads from the directory to the file |
| `Paths.OwnLinkIsRecognised` | crates/media-importer/src/paths.rs:350-365 | A link the tool makes into the blob directory is recognised as its own |
| `Paths.PointsInsideIff` | crates/media-importer/src/paths.rs:350-365 | A link is recognised as one of the tool's own exactly when it leads into the blob directory or to it |
| `Paths.SuffixIsInjective` | crates/media-importer/src/paths.rs:302-310 | Suffixed names coincide only for equal names and equal digits |
| `Paths.OutputPlace` | crates/media-importer/src/paths.rs:302-323 | An output lies in the directory of its relative path, as deep, under the file name with an underscore and the digits inserted before the extension |
| `Paths.OutputsCollideOnlyIf` | crates/media-importer/src/paths.rs:312-323 | Outputs coincide if and only if relative paths and hash digits do |
| `BrowseTree.DesiredExistsIff` | crates/media-importer/src/materialize.rs:100-150 | Planning accepts the catalog entries exactly when every blob is present and no two share relative path and hash digits |
| `BrowseTree.DesiredShows` | crates/media-importer/src/materialize.rs:100-150 | Every desired link is at the place of one of the entries, in the directory of its path under its suffixed name, and leads to that entry's blob |
| `BrowseTree.ConvergedShows` | crates/media-importer/src/materialize.rs:100-211 | A converged tree has for every entry a link at its place that leads to its blob, and each of the tool's own links shows an entry |
| `BrowseTree.ConvergedPlansNothing` | crates/media-importer/src/materialize.rs:150-211 | On a converged tree a plan finds every link in place and nothing stale or missing |
| `BuildTree.PlanLinks` | crates/media-importer/src/materialize.rs:156-191 | The status loop counts missing, kept and replaced links, and stops exactly if the user owns one of the paths |
| `BuildTree.PlanDirectories` | crates/media-importer/src/materialize.rs:254-289 | The directory loop lists exactly the missing ancestors, and stops exactly if one is not a directory |
| `BuildTree.PlanTree` | crates/media-importer/src/materialize.rs:100-211 | A plan exists exactly when outputs are distinct, blobs present and paths free, and it says what is there and what must change |
| `TreeApply.Disk.ApplyDesiredLink` | crates/media-importer/src/materialize.rs:389-437 | Success leaves the tree with that one link; stopping anywhere leaves at most a temporary link that is the tool's own |
| `TreeApply.Disk.Apply` | crates/media-importer/src/materialize.rs:340-386 | From any tree and with any failure the user's files and links are untouched; if it succeeds the tool's own links are exactly the desired ones |
| `BuildRuns.BuildAfterInterruptions` | crates/media-importer/src/materialize.rs:54-98 | After any number of interrupted commands, one that succeeds converges, shows every entry by a link at its place that leads to its blob, and planning again succeeds and finds nothing to do |
| `CasInspect.CasInspection.Walk` | crates/media-importer/src/store.rs:449-535 | The recursive walk adds exactly what its specification lists: valid hashes, findings, completeness |
| `CasInspect.InspectCas` | crates/media-importer/src/store.rs:335-354 | The inspection accepts only regular files at their blob path, all of them when complete, carries an I/O finding when it is not, and its findings are exactly those that the entries it can reach deserve; it finds nothing if and only if the store is laid out properly |
| `CasInspect.InspectionIsExact` | crates/media-importer/src/store.rs:335-354 | Accepted hashes are regular files at their blob path under real directories; a complete walk accepts all of them; an incomplete one carries a finding |
| `CasInspect.FindingsAreExact` | crates/media-importer/src/store.rs:449-535 | A malformed-entry finding with its reason is made for a place if and only if an entry reached there is wrong in that way, and an I/O finding if and only if something there cannot be read |
| `CasInspect.QuietIffLaidOut` | crates/media-importer/src/store.rs:449-535 | A walk without findings means that every reached entry is a shard directory or a regular file at its own blob path, and conversely |
| `Audit.AuditStore` | crates/media-importer/src/audit.rs:72-187 | The reconciliation loop returns exactly the findings of catalog, walk and every hash of either, and counts the files it hashed |
| `Audit.AuditIsExact` | crates/media-importer/src/audit.rs:72-187 | Without I/O errors the audit is clean if and only if rows and files match one to one in size and digest |
| `Audit.CleanAuditMeansSpotless` | crates/media-importer/src/audit.rs:72-187 | A clean audit proves a spotless store even if I/O may fail |
| `Audit.CleanAuditClearsPreflight` | crates/media-importer/src/gc.rs:617-669 | On a quiescent store a clean audit implies that the preflight of a collection finds nothing |
| `Audit.CollectionKeepsAuditClean` | crates/media-importer/src/audit.rs:72-187 | A collection that completes keeps the audit clean |
| `Audit.AuditIsStricter` | crates/media-importer/src/gc.rs:1151-1200 | A row whose file an interrupted collection removed is reported by the audit and tolerated by the preflight |
| `Diagnosis.AuditDiagnoses` | crates/media-importer/src/audit.rs:72-187 | Without I/O errors the audit reports exactly the stray files, the missing files, the wrong sizes and the corrupt files, each under its own category |
| `Diagnosis.PreflightDiagnoses` | crates/media-importer/src/gc.rs:610-771 | Without I/O errors the preflight reports exactly the strays, the rows without a file that are not collectable, the wrong sizes and the corrupt files about to be swept, each under its own category |
| `Diagnosis.AuditAccusesTruly` | crates/media-importer/src/audit.rs:72-187 | With I/O errors every finding of the audit is true of the store, but for a missing blob whose file is there, which is reported exactly when the walk did not list the file and the stat then found it |
| `Diagnosis.AuditMayCallPresentMissing` | crates/media-importer/src/audit.rs:86-108 | A concrete incomplete walk after which the audit reports a present file as missing |
| `Diagnosis.PreflightAccusesTruly` | crates/media-importer/src/gc.rs:1151-1200 | With I/O errors every finding of the preflight is true of the store |
| `Diagnosis.ReclaimableIsIntact` | crates/media-importer/src/gc.rs:674-755 | The reclaimable bytes of any preflight, quiet or not, are the sizes of the sweeps whose file was listed, read and found to be what its row says |
| `Hashing.HashReader` | crates/media-importer/src/hashing.rs:55-73 | For every chunk size and pattern of short reads the result is the hash and length of the whole content |
| `Hashing.HashReaderToWriter` | crates/media-importer/src/hashing.rs:76-96 | What is written is what was read, and the returned hash and length are those of what was written |

## Left out

- SQLite, its pragmas, WAL files and schema validation: a transaction is a staged copy; catalog findings enter the preflight and the audit as a set.
- File-system calls, modes, fsync, the run lock and the staging directory: calls succeed or fail; installing a blob is one atomic step, as the no-replace hard link makes it.
- Timestamps and row ids: source rows carry only hash, size, modification time and seen count; only the mark time of a blob is kept.
- 64-bit counter overflow: the checked additions of the collector are one of the faults that its steps may meet, the telemetry counters fail explicitly, and the counters of import reports and the seen count of a source row are unbounded.
- Order within the job and completion channels: channels of the executor are bounded bags, which allow every order a queue allows.
- Order of findings: the code sorts them and drops repeats of category and identity, so reports carry sets of such pairs; the escaping of paths for display is not modelled.
- Waiting telemetry entries leave in any order, where the code takes the smallest key; event and field names outside the transport's and dashboard's vocabulary are told apart only by what the code tests; gauge order and dashboard fields that are set rather than added to are not claimed.
- Fault paths of the executor: `Executor` models runs without worker or writer failures (a file that changed size, or one of another size under its hash in the store, stops its worker); what stops a failing run is `Cancellation`, and what a failed batch does is the writer's model.
- The occupancy events and the `completed_retained` counter, which may lag behind the work it counts; the bound is stated on the work itself.
- Which directories a browse-tree build prunes: `TreeApply.Disk.Apply` takes any list that does not name the root.
- The selection of live catalog entries for a browse tree and the check of their blobs: entries are inputs that say whether their blob is present.
- Non-UTF-8 path names, command-line parsing, configuration, JSON and terminal rendering.
- GcSafety.EarlyAbortChangesNothing: assumes that the cadence is not one, because with cadence one it is false, as GcSafety.EarlyAbortsAreHarmlessIff shows.
- GcSafety.ReportsAreExact: assumes that the cadence is not one, because with cadence one it is false, as GcSafety.ReportsAreExactIff shows.
