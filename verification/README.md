# azihsm SDK: resiliency, storage backends, DER surgery and the native boundary

This project models the stateful core of the azihsm SDK in Dafny and proves what it keeps.

**The resiliency protocol.** After a live migration or a firmware crash the SDK re-establishes
partition credentials, reopens stale sessions and re-creates key handles, from many threads of many
processes at once. `Protocol` is a step system over one shared store, one cross-process lock, any
number of processes with an in-memory restore epoch each, and any number of threads that operate on,
generate and delete keys, open sessions and initialise partitions. A thread's program counter fixes
the locks it holds and wants, as the lexical lock guards of the code do. The device, every I/O result
and the remaining retry budget are chosen freely at each step. An epoch write is published or lost,
and a published one may still report an error, as the store's last sync comes after its rename.
`Trace` is the history of a run, the events that move an epoch, as words of a grammar; stored and
in-memory epochs are functions of it. `LockOrder` and `ProtocolLocks` give mutual exclusion and
deadlock freedom, `ProtocolDeadlock` the converse, `ProtocolEpochs` a rely/guarantee invariant,
`ProtocolTheorems` what it says about every run, and `ProtocolRuns` the runs that show where a
promise ends. `Retry` and `KeyOpRetry` are the four retry loops as methods. `PartitionState` and
`SessionReopen` are one process's partition and session as classes that update their fields, with
the recovery material over every run of calls and the reopen of a session over every interleaving of
its two critical sections.

**Its backends.** `FileLock` is the flock-based lock as a step system with any number of processes,
threads and instances, nested use and process death. `FileStorage` is the write-temp-then-rename
store over directory entries and inodes; its class drives the step system one call at a time.

**DER.** `Der`, `Tbs`, `TbsRemoval` and `KeyUsage` are the in-place edits of a certificate body;
`Csr` is the structural PKCS#10 parser. Both are related to a printer of well-formed values in which
every length may have the short form or a long form of any width. A Rust panic is `None`.

**The native boundary.** `HandleTable` is the handle allocator, `OutputBuffers` and `OneShot` the
probe/fill discipline of commands with several outputs.

Closures that the code calls repeatedly are functions of the iteration, so that a statement for all
functions is a statement for all environments; device answers and I/O failures are parameters.

## Where the code and its documentation differ

- `api/docs/design-resiliency.md:371-377` lists the cross-process lock before the key barrier and the
  partition lock before session and key locks. The code takes the barrier first, then the
  cross-process lock, and key, session and partition locks in that order; deletion takes the key lock
  before the barrier. The proved order is the code's. It excludes circular waits exactly when no
  thread deletes a key that another one is working on (`RunDeadlockFree`, `SharedDeleteDeadlocks`,
  `DeadlockReachable`).
- `api/docs/design-resiliency.md:300-301` calls a key newer than its partition impossible and the
  stored epoch never behind memory. Both hold while every epoch write is published, also one that
  reports an error. `bump_epoch` moves memory before the store, so a lost write leaves memory one
  ahead (`GapIffWriteLost`), and a later re-initialisation reads the lower stored epoch
  (`SessionNewerIff`, `KeyNewerIff`, `NewerReachable`, `FailedWriteThenReinit`).
- `api/lib/src/partition.rs:638-647` means a restore whose snapshot was used to be skipped. That holds
  for a restore that completed; one that was given up because the backup masking key was not written
  leaves the snapshot to be used again (`OneInitPerSnapshot`, `SameSnapshotIff`, `SnapshotUsedTwice`).
- `api/lib/src/partition.rs:1070-1085` stores the masking key of a reopened session after the session
  lock was released. The session keeps the key of its last reopen because recovery holds the key
  barrier; without it crossed stores would leave an older key (`EpochAndKeyAgreeIff`, `CrossedStores`).
- `api/lib/src/resiliency.rs:694-706` reads both epochs once for each of its two comparisons, so an
  operation can run on a key older than the epoch just read (`OperationRunsIff`, `OperationEpoch`).
- `crates/resiliency_test_helpers/src/lib.rs:203-207` says a second `lock()` by the same thread
  succeeds at once. Every call opens its own description, so it waits (`NestedNeverGranted`).
- `crates/tbor_test_harness/src/x509_fixture.rs:514-519` says removing an extension never changes the
  width of a length. The code keeps the width; DER does not always allow that
  (`RemovalKeepsDerIff`, `RemovalLeavesWideLength`).

## Model

| member | source | states |
|---|---|---|
| Epoch.StoredEpochRoundTrip | api/lib/src/resiliency.rs:322-342 | writing an epoch and reading it back gives it; a stored value decodes to an epoch exactly when it is the eight-byte encoding of one |
| LockOrder.NoCircularWait | api/lib/src/partition.rs:1014-1025 | threads that take each lock above all they hold are never in a circular wait, for shared and exclusive locks with waiting writers |
| ProtocolLocks.RunLocks | api/lib/src/resiliency.rs:694-748 | in every state of every run the locks held by different threads are compatible, and every thread's task names live objects of its own process |
| ProtocolLocks.SomeThreadRuns | api/lib/src/partition.rs:622-735 | whenever some thread has work and no key is shared between a delete and another busy thread, some busy thread waits on nobody and can step |
| ProtocolLocks.RunDeadlockFree | api/lib/src/partition.rs:1041-1088 | over every run a set of threads is in a circular wait only if one of them deletes a key another of them works on |
| ProtocolLocks.HeldInBackoff | api/lib/src/partition.rs:503-517 | a sleeping thread never holds the key barrier, holds nothing at all in the three recovering loops, and exactly the cross-process lock and the partition in initialisation |
| ProtocolDeadlock.SharedDeleteDeadlocks | api/lib/src/algo/mod.rs:360-363 | from every settled state, an operation in recovery and a delete of the same key can be scheduled into a circular wait |
| ProtocolDeadlock.DeadlockReachable | api/lib/src/algo/mod.rs:360-363 | every process with two threads can get into that circular wait from its start |
| Trace.Conservation | api/lib/src/partition.rs:1464-1475 | in every well-formed history the stored epoch is its first value plus the published writes, saturating |
| Trace.ArmsSplit | api/lib/src/partition.rs:716-735 | every success arm entered was given up, lost its write, published it, or is still open, and only one of these |
| Trace.SnapshotAgainIff | api/lib/src/partition.rs:643-647 | without lost writes two entries of a process have the same snapshot exactly when nothing between them moved its memory off it |
| ProtocolEpochs.RunInv | api/lib/src/partition.rs:622-735 | every state of every run satisfies the epoch, session, key, lock and history invariants, whatever each write publishes or reports |
| ProtocolTheorems.EpochConservation | api/lib/src/partition.rs:1464-1475 | the stored epoch is its initial value plus the published writes, saturating; it counts all entered success arms of all processes exactly when none was given up, lost its write or is still open |
| ProtocolTheorems.MemoryBehindStore | api/lib/src/partition.rs:1438-1475 | memory is never more than one ahead of the store, and not ahead while no write is lost, except between a process's own two updates |
| ProtocolTheorems.RestoresGetDistinctEpochs | api/lib/src/partition.rs:1464-1475 | no two published restores of any processes get the same epoch below saturation |
| ProtocolTheorems.MemoryMonotone | api/lib/src/partition.rs:1438-1475 | in-memory epochs never decrease in a run in which no epoch write is lost |
| ProtocolTheorems.OneInitPerSnapshot | api/lib/src/partition.rs:716-735 | after a restore that wrote the masking key, read the epoch and published the next one, memory not ahead before, every later restore of the process enters the success arm from a later snapshot |
| ProtocolTheorems.SameSnapshotIff | api/lib/src/partition.rs:643-647 | without lost writes a snapshot is used again exactly when nothing moved memory off it, and below saturation the earlier restore was then given up |
| ProtocolTheorems.LateRestoreSkips | api/lib/src/partition.rs:643-647 | a restore whose snapshot a completed restore has used skips the device and reports success |
| ProtocolTheorems.NeverNewer | api/lib/src/partition.rs:1045-1052 | no session or key is newer than its partition while no write is lost |
| ProtocolTheorems.NewerErrorsUnreachable | api/lib/src/resiliency.rs:698-704 | while no write is lost no thread's next step reports a newer session or key, at any of the four places that compare |
| ProtocolTheorems.GuardFindsStale | api/lib/src/session.rs:101-108 | the re-check under the session lock always finds a stale session, whatever fails |
| ProtocolTheorems.OneReopenPerEpoch | api/lib/src/session.rs:93-114 | for each session and epoch at most one open or device reopen succeeds, over every interleaving |
| ProtocolTheorems.LastReopenWins | api/lib/src/partition.rs:1075-1085 | whenever no key is about to be stored, a session carries the epoch and the masking key last issued for it, over every interleaving |
| ProtocolTheorems.RecoveryCoherence | api/lib/src/resiliency.rs:731-747 | after recovery session, key and memory epochs are in order, and all equal to the stored one if nobody else moved an epoch |
| ProtocolTheorems.OperationEpoch | api/lib/src/resiliency.rs:694-712 | at the device call the key has the epoch that was checked, no recovery has moved memory since, and it is the partition's exactly when no session open or initialisation has either |
| ProtocolTheorems.NoHandleMovesUnderOperation | api/lib/src/resiliency.rs:694-712 | while a thread is between its epoch check and the end of its device call, no session of its process is reopened and no key restored |
| ProtocolTheorems.GapIffWriteLost | api/lib/src/partition.rs:1471-1472 | a step leaves memory ahead of the store for good exactly when it is an epoch write lost below saturation |
| ProtocolTheorems.SessionNewerIff | api/lib/src/partition.rs:1348-1354 | a step makes a session newer than its partition exactly when it re-initialises from a lower stored epoch or completes a reopen for an epoch above the partition's |
| ProtocolTheorems.KeyNewerIff | api/lib/src/algo/mod.rs:217-228 | the same for a key: re-initialisation below it, or a key restore for an epoch above the partition's |
| ProtocolRuns.SettledReachable | api/lib/src/partition.rs:489-518 | from every start any thread can bring its process to a state with a current session and key |
| ProtocolRuns.SnapshotUsedTwice | api/lib/src/partition.rs:716-722 | from every start the success arm can be entered twice from one snapshot without a lost write, after a failed write of the masking key |
| ProtocolRuns.LostWriteReuses | api/lib/src/partition.rs:1464-1475 | from every start below saturation a snapshot can be used again after a restore whose write was lost |
| ProtocolRuns.AheadReuses | api/lib/src/partition.rs:1464-1475 | and again after a published write, if memory was ahead of the store before it |
| ProtocolRuns.NewerReachable | api/lib/src/partition.rs:1348-1354 | from every start below saturation a session can become newer than its partition |
| Retry.TotalSleepBound | api/lib/src/resiliency.rs:382-387 | k retries sleep at most base·(2^maxRetries − 1) + maxRetries·jitter |
| Retry.DelayFits | api/lib/src/resiliency.rs:382-387 | no delay overflows when the longest one fits, and at an attempt some jitter overflows exactly when it exceeds the room the saturated product leaves |
| Retry.StopsOnce | api/lib/src/resiliency.rs:405-423 | for every sequence of outcomes there is exactly one stopping point, so the loops compute one fold |
| Retry.FoldCalls | api/lib/src/resiliency.rs:579-599 | the operation runs between once and once per retry plus one, and the result is that of the last run |
| Retry.ExecuteWithRetry | api/lib/src/resiliency.rs:405-423 | the loop stops at the fold's stopping point, each retry receives exactly the previous error, a retryable error means the budget is spent |
| Retry.ExecuteOpenSession | api/lib/src/resiliency.rs:579-599 | the fold with iterations skipped after a failed restore; at most maxRetries restores and maxRetries+1 calls |
| Retry.ExecuteKeyGen | api/lib/src/resiliency.rs:624-658 | the same fold with restore and session reopen before each retry |
| KeyOpRetry.KeyOpBounds | api/lib/src/resiliency.rs:683-749 | whatever each read of an epoch shows: at most maxRetries+1 calls, attempt at most maxRetries+1, passes bounded by budget plus restored keys found undone, and exactly when the loop stops for a newer key |
| KeyOpRetry.KeyOpSleepBound | api/lib/src/resiliency.rs:715-718 | in every environment total sleep stays within the common bound although failed recoveries skip attempt indices |
| KeyOpRetry.OperationRunsIff | api/lib/src/resiliency.rs:694-712 | the operation runs exactly when the first comparison does not find the key older and the second not newer; that is the key being current when the reads agree, and not when the epoch moves in between |
| KeyOpRetry.RecoveryReachesOperation | api/lib/src/resiliency.rs:731-747 | a recovery that costs no attempt has restored partition, session and key, and unless that is undone the next pass runs the operation or finds the key newer |
| KeyOpRetry.V2RecoveryCosts | api/lib/src/partition.rs:1067-1069 | a stale V2 session is never reopened, so each recovery pass costs an attempt |
| KeyOpRetry.V2Exhausts | api/lib/src/partition.rs:1067-1069 | with a V2 session that stays stale the loop ends within maxRetries+2 passes in every environment |
| KeyOpRetry.OutsideMovesStarve | api/lib/src/resiliency.rs:683-749 | with unbounded outside epoch moves the loop can run for ever without a call or an attempt |
| KeyOpRetry.RunOperation | api/lib/src/resiliency.rs:694-728 | phases 1 and 2 with four separate reads decide as the pass function says |
| KeyOpRetry.RunReopen | api/lib/src/partition.rs:1041-1088 | reopen succeeds exactly when the session is current without or under the lock, or stale, of the first kind and answered by the device |
| KeyOpRetry.RunRecovery | api/lib/src/resiliency.rs:731-747 | phase 3 restores partition, session and key, or costs exactly one attempt |
| KeyOpRetry.ExecuteKeyOp | api/lib/src/resiliency.rs:683-749 | the loop follows the passes, and ends by a lexicographic measure once restored keys are no longer undone before the next pass looks |
| PartitionState.ConversionsAccept | api/native/src/partition.rs:40-67 | exactly which key and endorsement structs the C conversions accept, and what they keep |
| PartitionState.RunKeepsMaterial | api/lib/src/resiliency.rs:272-286 | over every run of init, reset and restore from C: endorsement data present iff the source is the caller, callbacks present iff their source is the caller |
| PartitionState.RunKeepsSources | api/lib/src/partition.rs:1410-1423 | between initialisations credentials, sources, callbacks and a caller's masked owner key never change |
| PartitionState.RestoreGathersMaterial | api/lib/src/partition.rs:666-685 | a restore presents no plaintext key, is never refused for its arguments, and its missing-callback error is unreachable |
| PartitionState.OneExchange | api/lib/src/ddi/partition.rs:406-435 | however often initialisation retries, the device exchanges the plaintext owner key at most once |
| PartitionState.RawKeepsEpoch | api/lib/src/ddi/partition.rs:525-559 | clearing and persisting stored keys never touches the stored epoch |
| PartitionState.RestoreEpochs | api/lib/src/partition.rs:712-735 | for every answer of device and store the stored epoch, the in-memory epoch and the result after a restore, publication and report kept apart |
| PartitionState.AheadIffWriteLost | api/lib/src/partition.rs:1464-1475 | a restore puts memory ahead of the store exactly when its epoch write was lost below saturation |
| PartitionState.FailedWriteThenReinit | api/lib/src/partition.rs:1464-1475 | after an epoch write that reports an error, re-initialising lowers memory exactly when the write was lost |
| PartitionState.Partition.WriteKey | crates/resiliency_test_helpers/src/lib.rs:67-97 | the value is stored unless the write was lost, and success is reported only for a stored one |
| PartitionState.Partition.BumpEpoch | api/lib/src/partition.rs:1464-1475 | memory moves to one above the stored epoch, the store follows if the write is published, and the result is what the write reported |
| PartitionState.Partition.SyncEpoch | api/lib/src/partition.rs:1438-1456 | adopts a later stored epoch, keeps an equal or missing one, refuses an earlier one |
| PartitionState.Partition.UpdateCachedPota | api/lib/src/partition.rs:1410-1423 | endorsement bytes are replaced for the caller source and dropped otherwise, the source kept |
| PartitionState.Partition.PersistBmk | api/lib/src/partition.rs:1397-1404 | without resiliency nothing; otherwise the key is stored unless lost, and the report passed on |
| PartitionState.Partition.Init | api/lib/src/partition.rs:489-518 | the whole new state of an initialisation, for every device and I/O outcome |
| PartitionState.Partition.Commit | api/lib/src/partition.rs:1275-1357 | what initialisation caches for each answer, including the state left by a late failure |
| PartitionState.Partition.Reset | api/lib/src/partition.rs:1242-1251 | forgets the backup masking key and nothing else, and only if the erase succeeded |
| PartitionState.Partition.Restore | api/lib/src/partition.rs:622-735 | the whole new state of a restore, for every device and I/O outcome |
| PartitionState.Partition.Apply | api/lib/src/partition.rs:712-735 | the three arms after the device's answer |
| SessionReopen.OneReopenPerEpoch | api/lib/src/session.rs:93-114 | however the guards and key stores of racing attempts interleave, at most one attempt per epoch reaches the device and succeeds |
| SessionReopen.EpochAndKeyAgreeIff | api/lib/src/partition.rs:1075-1085 | the session ends with the epoch of the last reopen and the key of the last store, which belong together exactly when one attempt did both |
| SessionReopen.LastReopenWins | api/lib/src/partition.rs:1075-1085 | if each reopen stores its key before another section begins, the session ends with epoch and key of the last reopen |
| SessionReopen.CrossedStores | api/lib/src/partition.rs:1075-1085 | for every two attempts that both reopen, crossing their sections leaves the later epoch with the earlier key |
| SessionReopen.ReopenIsItsSections | api/lib/src/partition.rs:1041-1088 | an undisturbed reopen is its two sections one after the other |
| SessionReopen.Session.WithReopenGuard | api/lib/src/session.rs:93-114 | current sessions are left alone, newer ones refused, stale ones move only if the device succeeds |
| SessionReopen.Session.SetBmkSession | api/lib/src/session.rs:134-137 | replaces the masking key and nothing else |
| SessionReopen.Session.ReopenIfNeeded | api/lib/src/partition.rs:1041-1088 | fast path, V2 refusal, guard and key update, with the whole new state |
| SessionReopen.Session.constructor | api/lib/src/session.rs:566-586 | a session records the partition's epoch when the handle is built |
| FileLock.MutualExclusion | crates/resiliency_test_helpers/src/lib.rs:190-216 | over every run at most one guard exists, for all threads, processes and instances, nested use included |
| FileLock.SlotsFollowOsLock | crates/resiliency_test_helpers/src/lib.rs:190-226 | a slot is set only while its description has the OS lock, and the OS lock is taken exactly while a live thread is between grant and release |
| FileLock.ErrorBranchesUnreachable | crates/resiliency_test_helpers/src/lib.rs:208-226 | the re-entrancy error and the nothing-to-unlock error never occur through the guard |
| FileLock.NestedNeverGranted | crates/resiliency_test_helpers/src/lib.rs:194-207 | a second lock by a holder is never granted; it ends only by an OS error or process death |
| FileStorage.WritesAreAtomic | crates/resiliency_test_helpers/src/lib.rs:67-97 | after any interleaving, error or cut-off every key reads as if each write were one step at its rename |
| FileStorage.ResultTellsPublication | crates/resiliency_test_helpers/src/lib.rs:67-97 | success means published exactly once, an error before the rename not at all, only a failed directory sync reports an error for a published value |
| FileStorage.ReadersSeeOneValue | crates/resiliency_test_helpers/src/lib.rs:52-65 | a reader gets exactly the complete value the key had when it was opened, whatever happens meanwhile |
| FileStorage.CreateHarmlessIffApart | crates/resiliency_test_helpers/src/lib.rs:67-70 | opening the temporary file leaves all keys alone in all states exactly when no key is that temporary name |
| FileStorage.OverlappingWritersTear | crates/resiliency_test_helpers/src/lib.rs:67-97 | two overlapping writers of one key can mix their bytes in the published value |
| FileStorage.Directory.Read | crates/resiliency_test_helpers/src/lib.rs:52-65 | the complete stored bytes, NotFound for a missing key, InternalError for any other failure |
| FileStorage.Directory.Write | crates/resiliency_test_helpers/src/lib.rs:67-97 | a run of the step system by one more writer: to readers of every key an atomic put exactly when all calls up to the rename succeed, and success exactly when the directory sync does too |
| FileStorage.Directory.Clear | crates/resiliency_test_helpers/src/lib.rs:99-105 | always reports success; to readers of every key the key is gone exactly when the removal worked |
| Der.ReadDerLen | crates/tbor_test_harness/src/x509_fixture.rs:552-563 | the accumulating loop gives the big-endian value in a 64-bit word and the field's width, or panics out of range |
| Der.DerTlv | crates/tbor_test_harness/src/x509_fixture.rs:760-774 | tag, contents and rest of the first TLV, or a panic out of range |
| Der.ReadersAgree | crates/tbor_test_harness/src/x509_fixture.rs:552-563 | the two length readers agree on every header, and the TLV reader splits its input without loss |
| Der.TlvPrinted | crates/tbor_test_harness/src/x509_fixture.rs:760-774 | parsing inverts printing of one field in any definite length form |
| Der.SameWidthOk | crates/tbor_test_harness/src/x509_fixture.rs:568-578 | a shrunk length fits its old width and the rewritten field encodes it |
| Der.RewrittenPrinted | crates/tbor_test_harness/src/x509_fixture.rs:568-578 | rewriting a length field changes that field only, and panics exactly for more than eight octets |
| Tbs.TbsBuffer.WriteDerLen | crates/tbor_test_harness/src/x509_fixture.rs:568-578 | the octet loop writes the field of the same width, or panics |
| Tbs.TbsBuffer.FindExtensions | crates/tbor_test_harness/src/x509_fixture.rs:526-536 | the index loop terminates at the first [3] field or panics |
| Tbs.TbsBuffer.RemoveExtension | crates/tbor_test_harness/src/x509_fixture.rs:520-548 | locate, shrink three lengths in place, splice |
| Tbs.TbsBuffer.ApplyKeyUsageMutation | crates/tbor_test_harness/src/x509_fixture.rs:485-512 | the mutation at the first KeyUsage OID, or a panic |
| TbsRemoval.ExtensionRemoved | crates/tbor_test_harness/src/x509_fixture.rs:520-548 | removing any extension from any printed body gives the print of the well-formed body without it, in the old widths; it panics exactly when an enclosing length has more than eight octets |
| KeyUsage.KeyUsageRemoved | crates/tbor_test_harness/src/x509_fixture.rs:485-512 | removing KeyUsage by its OID gives the body without that extension |
| KeyUsage.KeyCertSignDropped | crates/tbor_test_harness/src/x509_fixture.rs:500-510 | for every extension of every body: its final byte becomes 0x02 and nothing else changes exactly when that byte is 0x06 and the first match of the OID picks the extension's end |
| KeyUsage.WithLastOk | crates/tbor_test_harness/src/x509_fixture.rs:500-510 | that change keeps the body well-formed, every length included |
| KeyUsage.RemovalKeepsDerIff | crates/tbor_test_harness/src/x509_fixture.rs:514-519 | minimal lengths stay minimal exactly when each of the three shrunk sizes still needs its width |
| KeyUsage.RemovalLeavesWideLength | crates/tbor_test_harness/src/x509_fixture.rs:514-519 | a DER body whose result has a wider length than DER allows |
| Csr.PubOfPrinted | crates/tbor_test_harness/src/x509_fixture.rs:722-744 | from every printed request exactly the encoded 97-byte point, refused exactly when the key is not one |
| Csr.SubjectOfPrinted | crates/tbor_test_harness/src/x509_fixture.rs:749-755 | from every printed request the whole subject field |
| HandleTable.ProbeOnce | api/native/src/handle_table.rs:111-119 | one increment always suffices; the counter overflows exactly when it stands at the last handle and that is live |
| HandleTable.RunHolds | api/native/src/handle_table.rs:110-173 | over every run: live handles between 1 and the counter, counter at most the allocations, each object live, returned or dropped, never two of these |
| HandleTable.LookupGivesLast | api/native/src/handle_table.rs:121-127 | a lookup gives the object last stored under that handle and type and not freed since |
| HandleTable.NoOverflow | api/native/src/lib.rs:82-86 | no run of fewer than 2^32 allocations overflows the counter |
| HandleTable.ReusesIffCounterFreed | api/native/src/handle_table.rs:111-119 | an allocation reuses an issued handle exactly when the one the counter stands at was freed |
| HandleTable.ContextFreeDropsNothing | api/native/src/handle_table.rs:196-243 | a context free succeeds exactly for live context handles, returns the object and leaves other types alone |
| HandleTable.Handles.AllocHandle | api/native/src/handle_table.rs:111-119 | the probing loop finds the first free non-zero handle from the counter on and stores the object there |
| HandleTable.Handles.Addr | api/native/src/handle_table.rs:121-127 | the object under a handle of matching type, else InvalidHandle |
| HandleTable.Handles.FreeHandle | api/native/src/handle_table.rs:152-164 | removes the entry whatever its type and returns the object only on a match |
| HandleTable.Handles.GetHandleType | api/native/src/handle_table.rs:167-172 | the type under a live handle |
| HandleTable.Handles.FreeCtxHandle | api/native/src/handle_table.rs:196-243 | type query, context check, free, with the whole new table |
| OutputBuffers.RetryPasses | api/native/src/utils.rs:175-193 | one probe advertises every capacity: a retry with storage of those lengths passes |
| OutputBuffers.SameStructsPassIff | api/native/src/utils.rs:134-151 | repeating the call with the same structs passes exactly when none lacks storage it needs |
| OutputBuffers.ValidateOutputBuffer | api/native/src/utils.rs:134-151 | malformed outranks small; a small buffer is told the required length |
| OutputBuffers.ValidateDistinctOutputBuffers | api/native/src/utils.rs:160-170 | passes exactly when no pointer is null and no two are equal |
| OutputBuffers.ValidateOutputSizes | api/native/src/utils.rs:175-193 | a malformed buffer anywhere outranks small ones; if any is small every length is advertised; else nothing changes |
| OutputBuffers.ProbeTwo | api/native/src/session_ex.rs:180-223 | the hand-written check gives the general verdict, after refusing shared storage, and advertises the same lengths |
| OutputBuffers.CopyToBuffer | api/native/src/utils.rs:255-263 | on success the bytes and their length, the rest of the storage unchanged; on failure no byte changes |
| OutputBuffers.UnpackCertChain | api/native/src/sd.rs:59-75 | one to eight certificates, all readable, in order; InvalidArgument otherwise |
| OneShot.CopyAll | api/native/src/sd.rs:234-236 | the copies succeed exactly when every result fits, and then every output holds its result exactly when results that share storage agree |
| OneShot.RunChecked | api/native/src/sd.rs:213-236 | the command takes place exactly when every output passed; a failed check or command changes no output byte; on success all results are held exactly when those that share storage agree |
| OneShot.Entry | api/native/src/sd.rs:651-664 | with unusable pointers nothing is touched; otherwise advertised lengths, untouched storage, the command and the delivery as for checked outputs |

## Left out

- The `ddi` device calls beyond their answers, the cryptography, the TBOR and MBOR codecs, the macro crate and the C plumbing: no invariant beyond the ones modelled, or code of other libraries.
- Sealing keys, whose restore does nothing (api/lib/src/algo/sealing/key.rs:42); the protocol takes from the other key types that a successful restore leaves the key at the partition's epoch.
- A process dying in the middle of the protocol, and a stored epoch key that is removed or garbled; `FileLock` and `FileStorage` have process death.
- `Protocol` has no device handles as such: a fresh session or the first attempt of a key generation adds an object and moves none.
- Errors of the store are one error value in `PartitionState`; the code passes on whatever the store returns.
- FileStorage.WritesAreAtomic: is about writers cut off while the file system lives on, not about power loss, because what a sync makes durable is a property of the file system.
- FileLock.MutualExclusion: says nothing about fairness among waiting threads, which the OS decides.
- HandleTable.Handles.AllocHandle: models the overflow of the counter as the panic of a build with overflow checks; without them it wraps to 0 and the loop goes on.
- OutputBuffers.CopyToBuffer: takes results of at most 2^32 − 1 bytes, because longer ones are cut by the cast of their length.
- OneShot.CopyAll: outputs share storage when they have the same pointer; pointers into the middle of another output's storage are not modelled.
- KeyOpRetry.ExecuteKeyOp: is for budgets below 2^32 − 1, because a failed recovery may count one beyond the budget.
- OutputBuffers.ValidateDistinctOutputBuffers: a misaligned pointer counts as null.
- KeyUsage.KeyUsageRemoved: is for the extension as the template prints it, with a short length and the first match of the OID in the bytes.
- Csr.PubOfPrinted: is for printed requests; the readers also take the octet 0x80 for a length of zero, which no definite length is.
- References handed out by the handle table while other threads free handles: raw pointers, outside the table's own accounting.
