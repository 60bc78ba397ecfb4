# Checkpoint-runtime: a verified model

Checkpoint-runtime saves and restores the state of distributed training jobs.
This project models its three connected parts and proves what they promise.

* **Shard data path** (`Sequences`, `ObjectKeys`, `ObjectStore`, `ShardWriter`,
  `DataPlane`, `ControlPlane`). A body is cut into 1 MiB messages, regrouped in
  place into exact 5 MiB multipart parts, hashed, staged, promoted to a
  content-addressed key, listed in a manifest and read back in 4 MiB slices. The
  object store may fail at every call, with or without effect.
* **Checkpoint, failure and recovery protocol** (`RunStates`, `Coordinator`,
  `Protocol`, `RoundTrip`, `LeftoverManifest`, `CommitConflict`, `WorkerViews`,
  `ViewChanges`, `WorkerManager`, `Heartbeats`, `Detection`, `GroupRestart`,
  `GroupFailure`, `FailureAccount`, `ScanOrder`, `ExpiryScan`, `FailureExample`,
  `RestartSlot`, `Training`, `TrainingRetention`, `TrainingWalk`, `TrainingClient`,
  `Rendezvous`). The classes are the source's objects; `Protocol`, `WorkerViews`,
  `ScanOrder`, `RestartSlot`, `Training` and `Rendezvous` are state machines whose
  steps the class methods are shown to take (or, for threads and ranks, whose steps
  interleave), with theorems over all runs.
* **Retention and the prefix scan** (`Ranking`, `Listings`, `Retention`,
  `RetentionRules`, `RetentionFixpoint`, `SecondPass`, `RecoveryPoint`,
  `RecoveryPointLost`, `LexOrder`, `PrefixScan`). The deletion planner is proved
  against a declarative plan by ranks, that plan against the listed objects, and
  against what recovery needs.

What is assumed, and where:

* SHA-256 is a function parameter; `Distinguishes` says that the sixteen digits
  a key carries tell the payloads in play apart. Nothing else is assumed of it.
* Any call to the store or the data plane may fail or lose its answer. `reliable`,
  `linked` and `threadsStart` single out systems in which none does; contracts say
  what then has to succeed, and with which effect.
* Random ids and UUIDs are parameters that are not in use yet.
* Time is an integer input, in seconds. Handlers are atomic steps; the restart
  slot, whose locked sections interleave, and the rendezvous are not.
* A HEAD request that fails reads as "absent", as the client reports it
  (rust-dataplane/src/storage/s3.rs:198-214).

Found on the way, kept as the code has it and stated exactly:

* An ambiguous commit error can leave a manifest behind a FAILED checkpoint.
  Uploading to that checkpoint again and committing finds the old manifest, and
  the checkpoint is COMMITTED although its manifest lists deleted objects.
  `CommittedButLost` is the run in which that happens. Committed means restorable
  if and only if each successful commit wrote its own manifest or found a complete
  one (`CommittedIsRestorableExactly`, and for one commit `CommitRestoresExactly`
  and `CommitReliableExactly`). The SDK (trigger, upload, commit, once each) never
  uploads to a checkpoint after its commit, so it is safe (`OpenUploadsRestorable`).
* Such a leftover manifest also counts as a committed checkpoint for retention
  and can displace the one recovery would use (`RecoveryPointDisplaced`, and
  `RunLosesItsRecoveryPoint` for a whole run of the system).
* Retention is not idempotent: `SecondPassTakesCommitted`.
* A restart that was never attempted counts as attempted at monotonic time zero,
  so in the first 30 seconds of the host's clock a call answers true without
  restarting anything (`RetryAfterFailure`).
* A run to which the restart slot is closed fails and recovers once per overdue
  worker of a scan (`FailsPerWorker`, `TwoWorkersFailTwice`). Exactly one failure
  and one recovery are certain if and only if the slot is open to the run on entry
  and to no other run with overdue workers, or one worker is overdue
  (`OneRecoveryAlways`; for a given order of the leases `OneRecoveryInOrder`). A
  supervised run id rules such rivals out (`SupervisedHasNoRival`).
* `commit_run` moves its run on if and only if the run is CHECKPOINTING
  (`MovesOnExactly`). In every other state that is possible with an uploaded
  checkpoint (RUNNING after a resume, FAILED, RECOVERING, COMMITTED, CANCELLED,
  COMPLETED) it commits the checkpoint, leaves the run where it is and answers 409
  (`CommittedWithConflict`).

## Model

| member | source | states |
|---|---|---|
| `ShardWriter.PartBuffer.Push` | rust-dataplane/src/checkpoint/writer.rs:127-128 | A received chunk is appended to the buffer; the byte counter stays the sum of the chunk lengths. |
| `ShardWriter.PartBuffer.TakePart` | rust-dataplane/src/checkpoint/writer.rs:229-247 | Exactly the first `part_size` buffered bytes are removed and returned, the rest stays in order, the counter follows. Empty chunks are allowed; the loop ends by (bytes still needed, chunks left) and never indexes an empty list. |
| `ShardWriter.SendFullParts` | rust-dataplane/src/checkpoint/writer.rs:130-142 | While 5 MiB or more are buffered, full parts go out under consecutive numbers; parts sent plus bytes pending are always the bytes received. |
| `ShardWriter.SendLastPart` | rust-dataplane/src/checkpoint/writer.rs:146-165 | Once less than a part is pending, sending it makes the uploaded parts exactly the 5 MiB slices of everything received; there is no part exactly when nothing was received. |
| `ShardWriter.UploadParts` | rust-dataplane/src/checkpoint/writer.rs:112-171 | For every chunk stream: on success the parts are the 5 MiB slices of the received bytes, numbered from 1, and the hashed bytes are those same bytes; a stream error or an all-empty stream is an error; with a reliable store anything else succeeds. |
| `ShardWriter.StageUpload` | rust-dataplane/src/checkpoint/writer.rs:82-181 | Staging the stream: on success the staging key holds exactly the received bytes and nothing else changed; a broken or empty stream changes nothing; after any other error the staging key may have been filled. |
| `ShardWriter.Promote` | rust-dataplane/src/checkpoint/writer.rs:183-215 | From the staged object to the addressed one: only own keys change, whatever fails; with a reliable store an object already at the key stays, otherwise the staged bytes are put there, the staged object goes and the checksum is written. |
| `ShardWriter.WriteShardStream` | rust-dataplane/src/checkpoint/writer.rs:82-223 | How a write leaves the bucket, for every failure of every store call: only its own staging, shard and sidecar keys can change; success reports length, digest and key of the received bytes, fills the key, writes the sidecar and leaves no staging object; an interrupted or empty stream changes nothing. With a reliable store every complete non-empty stream succeeds, the bucket afterwards is stated exactly, and no multipart upload stays open. |
| `ShardWriter.PartsSelected` | rust-dataplane/src/storage/s3.rs:111-130 | The parts sent satisfy what completing a multipart upload asks for (ascending known parts, all but the last of the minimum size), and completing yields their join. |
| `Sequences.RegularUnique` | rust-dataplane/src/checkpoint/writer.rs:130-161 | However chunks arrived, parts of 5 MiB with a shorter last one are the fixed-size slices of the joined bytes: the regrouping does not depend on the chunking. |
| `Sequences.SliceAt` | rust-dataplane/src/checkpoint/reader.rs:25-29 | Slice i covers bytes i*n up to (i+1)*n, and the last one ends the data. |
| `ObjectKeys.KindsDisjoint` | rust-dataplane/src/checkpoint/writer.rs:30-43 | Staging, shard, sidecar and manifest keys never coincide, whatever the ids. |
| `ObjectKeys.ShardKeyInjective` | rust-dataplane/src/checkpoint/writer.rs:30-43 | For slash-free run and checkpoint ids a shard key determines run, checkpoint, digest digits and shard id. |
| `ObjectKeys.SplitUnder` | python-controlplane/src/controlplane/retention.py:145-149 | Splitting a key of a checkpoint at the first two slashes gives back run, checkpoint and rest. |
| `ObjectKeys.UnderIffSplit` | python-controlplane/src/controlplane/retention.py:145-149 | A key lies under a checkpoint directory exactly when its first two segments are that run and checkpoint. |
| `ObjectKeys.CompositeSplits` | rust-dataplane/src/grpc_service.rs:87-95 | The composite id sent by the control plane is split back into run and checkpoint id. |
| `ObjectKeys.OnlyManifestEndsSo` | rust-dataplane/src/checkpoint/gc.rs:26-31 | Of the keys the writer and the commit make, only the manifest has the suffix that an abort spares. |
| `DataPlane.ChunksCarryBody` | python-controlplane/src/controlplane/api/rest.py:868-886 | Joining the messages of a body gives the body; each offset is the number of bytes before it; `is_last` holds exactly on the final message; there are none exactly for an empty body. |
| `DataPlane.RelayedIntact` | rust-dataplane/src/grpc_service.rs:115-141 | A stream whose messages all carry the first one's ids reaches the writer complete and in order. |
| `DataPlane.RelayedExactly` | rust-dataplane/src/grpc_service.rs:115-141 | A stream delivers its data if and only if no message is an error and all carry the same ids. |
| `DataPlane.Relay` | rust-dataplane/src/grpc_service.rs:121-139 | The relay loop forwards message data up to the first transport error or change of ids, and turns that into one error. |
| `DataPlane.CheckpointService.WriteShard` | rust-dataplane/src/grpc_service.rs:43-190 | An empty stream is an error without effect; otherwise the writer is run for the split ids on the relayed bytes. |
| `DataPlane.SliceData` | rust-dataplane/src/checkpoint/reader.rs:18-32 | The chunk loop produces the fixed-size slices of the object. |
| `DataPlane.CheckpointService.ReadManifest` | rust-dataplane/src/checkpoint/manifest.rs:68-82 | A manifest that is returned is the one in the bucket. |
| `DataPlane.CheckpointService.ReadShard` | rust-dataplane/src/grpc_service.rs:196-281 | Messages returned are the 4 MiB cut of the bytes at the key of the first manifest entry with that shard id; with a reliable store they are returned exactly when there are such bytes. |
| `DataPlane.CheckpointService.CommitCheckpoint` | rust-dataplane/src/grpc_service.rs:284-358 | Idempotent commit point: with a reliable store it succeeds, a manifest that is there is kept, and otherwise this one is written and nothing else. Without: on success a manifest is there, and only this one can have replaced an earlier one, when the HEAD request failed; a failed attempt may have written it. Counts and sizes are those of the shard list. |
| `DataPlane.CheckpointService.AbortCheckpoint` | rust-dataplane/src/checkpoint/gc.rs:17-37 | Only non-manifest objects of this checkpoint can disappear; on success all of them have, and their number is reported; with a reliable store it succeeds. |
| `DataPlane.DoomedExactly` | rust-dataplane/src/checkpoint/gc.rs:23-31 | The objects an abort takes, by their keys: below run/checkpoint/ and not ending in _manifest.json. |
| `DataPlane.PartialObjectsDoomed` | rust-dataplane/src/checkpoint/gc.rs:23-31 | Whatever a write has left, staged object, shard or checksum, is among them; the manifest is not. |
| `RunStates.TerminalAbsorbs` | python-controlplane/src/controlplane/state_machine.py:46-78 | On every path in the transition table nothing follows CANCELLED or COMPLETED. |
| `RunStates.EnteredFrom` | python-controlplane/src/controlplane/state_machine.py:46-78 | The transition table by target: from which states each state can be entered; terminal states are those without a successor. |
| `RunStates.RecoveringInBetween` | python-controlplane/src/controlplane/state_machine.py:46-78 | On every path from FAILED to RUNNING or COMPLETED there is a RECOVERING in between. |
| `RunStates.RunningBetweenCheckpoints` | python-controlplane/src/controlplane/state_machine.py:46-78 | Between two CHECKPOINTING states a run passes through RUNNING. |
| `RunStates.RunStateMachine.Transition` | python-controlplane/src/controlplane/state_machine.py:115-129 | Accepts exactly the table's targets, appends the step to the history, and changes nothing when it refuses. |
| `Coordinator.Coordinator.TransitionRun` | python-controlplane/src/controlplane/coordinator.py:255-266 | With or without a cached machine: refused exactly when the persisted state does not allow the target; cached and persisted state stay equal and the persisted states stay a path in the table. |
| `Coordinator.TracedNext` | python-controlplane/src/controlplane/coordinator.py:260-265 | Every persisted state change extends a path in the transition table. |
| `Coordinator.Coordinator.SetRunError` | python-controlplane/src/controlplane/coordinator.py:277-289 | A FAILED transition with its message, under the same agreement of cache and store. |
| `Coordinator.Coordinator.Restart` | python-controlplane/src/controlplane/coordinator.py:206-206 | Losing the cache keeps the agreement of cached and persisted states. |
| `Coordinator.Coordinator.CreateCheckpoint` | python-controlplane/src/controlplane/coordinator.py:293-325 | A PENDING record, remembered by its run; unknown runs are refused. |
| `Coordinator.Coordinator.UpdateCheckpointState` | python-controlplane/src/controlplane/coordinator.py:347-374 | State and given details of one record change, nothing else. |
| `Coordinator.Coordinator.ListCheckpoints` | python-controlplane/src/controlplane/coordinator.py:337-345 | Exactly the run's records, each once, by ascending step. |
| `Coordinator.Coordinator.Heartbeat` | python-controlplane/src/controlplane/coordinator.py:426-440 | Updates time and step and sets the record ACTIVE, whatever it was. |
| `Coordinator.Coordinator.MarkWorkerDead` | python-controlplane/src/controlplane/coordinator.py:453-472 | Changes the status of an existing record of that run only. |
| `PrefixScan.PrefixEnd` | python-controlplane/src/controlplane/coordinator.py:127-134 | The computed end: keys in [prefix, end) are exactly those with the prefix, and it is the least bound; one zero byte for an all-0xFF prefix. |
| `PrefixScan.BoundLeast` | python-controlplane/src/controlplane/coordinator.py:127-134 | Any byte string above all keys with the prefix is no smaller than the computed end. |
| `PrefixScan.FromAllFF` | python-controlplane/src/controlplane/coordinator.py:134-134 | Without an upper bound the keys from an all-0xFF prefix on are those with the prefix. |
| `PrefixScan.RangeIsFilter` | python-controlplane/src/controlplane/coordinator.py:127-169 | The two adapters agree: over the same data etcd's range request returns the map the prefix filter returns, for every non-empty prefix. |
| `PrefixScan.EtcdKVStore.GetPrefix` | python-controlplane/src/controlplane/coordinator.py:157-169 | For every non-empty prefix the range request returns exactly the keys with the prefix. |
| `PrefixScan.InMemoryKVStore.GetPrefix` | python-controlplane/src/controlplane/coordinator.py:81-82 | The filter loop returns exactly the stored keys that start with the prefix, with their values. |
| `Protocol.StepKeeps` | python-controlplane/src/controlplane/api/rest.py:518-543 | Each protocol step keeps the invariant, at each of three levels. Always: content-addressed store, every listed entry stored with its size and digest, a committed record has a manifest. If successful commits write their own manifest or find a complete one: manifests of committed records are complete. If no upload goes to a failed record with a leftover manifest: those of all unfailed records are. |
| `Protocol.AlwaysInv` | python-controlplane/src/controlplane/api/rest.py:648-715 | In every state of every run of the system the invariant holds, at the level whose condition the steps so far have met; the first level needs none. |
| `Protocol.CommittedIsRestorable` | python-controlplane/src/controlplane/api/rest.py:648-715 | Over every sequence of triggers, uploads to records in any state, commits, aborts, ambiguous errors, control-plane deaths, worker failures and error-free retention passes, a COMMITTED checkpoint has its manifest and every listed object is stored with the recorded size and digest, provided each successful commit wrote its own manifest or found a complete one. |
| `Protocol.CommittedIsRestorableExactly` | python-controlplane/src/controlplane/api/rest.py:648-715 | For every run of the system: committed means restorable in all of its states if and only if each of its successful commits wrote its own manifest or found a complete one. |
| `Protocol.CommitRestoresExactly` | rust-dataplane/src/checkpoint/manifest.rs:40-65 | After a successful commit the checkpoint is restorable if and only if the commit wrote its own manifest or the manifest it found was complete. |
| `Protocol.CommitReliableExactly` | rust-dataplane/src/checkpoint/manifest.rs:51-58 | Decided before the commit: however the store answers, a successful commit leaves a restorable checkpoint, if and only if there is no manifest yet or the one there is complete. |
| `Protocol.OpenUploadsRestorable` | python-controlplane/src/controlplane/api/rest.py:843-860 | Clients that upload only to PENDING and IN_PROGRESS checkpoints never see a committed checkpoint that cannot be restored. |
| `Protocol.EntriesSurviveCommit` | rust-dataplane/src/checkpoint/manifest.rs:40-65 | A commit attempt, whatever its outcome, leaves every listed entry standing, and its manifest, if it is the one there, complete. |
| `Protocol.CommittedStays` | python-controlplane/src/controlplane/api/rest.py:843-949 | A committed checkpoint keeps record and manifest until retention removes it or more is uploaded to it. |
| `Protocol.WriteKeepsAddressing` | rust-dataplane/src/checkpoint/writer.rs:183-200 | Every shard write, finished or not, keeps each shard object a payload whose digest starts with the digits in its key. |
| `Protocol.EntryAfterWrite` | rust-dataplane/src/checkpoint/writer.rs:187-199 | After a write an entry stands exactly when it stood before or is the one just written. |
| `RoundTrip.FirstUploadListed` | python-controlplane/src/controlplane/api/rest.py:912-934 | Between trigger and commit the list has, for each shard id, the entry of its first upload first, whatever is uploaded under that id later. |
| `RoundTrip.DownloadReturnsUpload` | python-controlplane/src/controlplane/api/rest.py:955-975 | End to end over whole runs: for every shard id the first upload between trigger and commit is what a later download addresses, byte for byte, also when the id was uploaded again before the commit. |
| `LeftoverManifest.UploadCompletesExactly` | rust-dataplane/src/checkpoint/writer.rs:187-199 | A successful upload leaves a complete manifest if and only if every entry of the manifest there stands already or is the one this very upload stores. |
| `LeftoverManifest.CommittedButLost` | python-controlplane/src/controlplane/api/rest.py:677-701 | For any ids and bodies, a seven-step run that ends COMMITTED and not restorable (lost commit answer, abort, new upload, commit finds the old manifest); all its steps but that commit meet the condition. |
| `ControlPlane.ControlPlane.TriggerCheckpoint` | python-controlplane/src/controlplane/api/rest.py:616-646 | 404, 409 or a PENDING record at the given or current step; refusals change nothing. |
| `ControlPlane.ControlPlane.AbortFailedCheckpoint` | python-controlplane/src/controlplane/api/rest.py:518-543 | Record FAILED, run failed if the table allows, shard list forgotten, partial objects cleared as far as the data plane can, and all of them on a reliable system. |
| `ControlPlane.ControlPlane.SendShard` | python-controlplane/src/controlplane/api/rest.py:868-889 | Cutting, streaming, a broken connection or a lost answer: only the upload's own keys are touched, and an answer carries length, digest and key of the body; on a reliable system there is one. |
| `ControlPlane.ControlPlane.UploadShard` | python-controlplane/src/controlplane/api/rest.py:843-949 | The handler is exactly the successful or the failing upload step of the protocol; 503 without a data plane, 404 and 400 change nothing; a reliable system has no other refusals. |
| `ControlPlane.RecomputedKey` | python-controlplane/src/controlplane/api/rest.py:914-916 | The storage key recomputed from the answer is the one the writer filled. |
| `ControlPlane.CutMessages` | python-controlplane/src/controlplane/api/rest.py:875-886 | The offset loop yields the 1 MiB messages of the body. |
| `ControlPlane.CutOffDeliversNothing` | rust-dataplane/src/grpc_service.rs:134-137 | A stream broken off by an error counts as no upload at all. |
| `ControlPlane.ControlPlane.PickCheckpoint` | python-controlplane/src/controlplane/api/rest.py:657-661 | The in-progress checkpoint of the highest step, or none if there is none. |
| `ControlPlane.ControlPlane.CommitRun` | python-controlplane/src/controlplane/api/rest.py:648-715 | The handler is a successful or failing commit step of the protocol or changes nothing, with its status codes; 409 after the data plane answered means committed, but the run could not move on. On a reliable system a run that has an uploaded checkpoint and can move on is committed, and a manifest that was there is kept. |
| `CommitConflict.MovesOnExactly` | python-controlplane/src/controlplane/api/rest.py:704-711 | A successful commit marks the checkpoint COMMITTED in any state of the run, and moves the run if and only if it was CHECKPOINTING, to RUNNING. |
| `CommitConflict.CommittedWithConflict` | python-controlplane/src/controlplane/api/rest.py:704-711 | A run of the system (trigger, upload, resume from CHECKPOINTING, commit) in which the commit is answered 409: the run stays RUNNING and the checkpoint is COMMITTED. |
| `ControlPlane.ControlPlane.ResumeRun` | python-controlplane/src/controlplane/api/rest.py:717-761 | FAILED becomes RECOVERING, other live states RUNNING, terminal ones are refused. |
| `ControlPlane.ControlPlane.DownloadShard` | python-controlplane/src/controlplane/api/rest.py:955-975 | The joined messages are the bytes addressed by the manifest; on a reliable system the answer is exactly those bytes, 404 for none and 500 without manifest, entry or object. |
| `Retention.CheckpointRetentionManager.RunOnce` | python-controlplane/src/controlplane/retention.py:137-250 | Without an error exactly the planned groups lose all objects and records, in batches of at most 1000 that hold each planned object once, with exact counts and bytes; with an error no record is removed; with a reliable store there is no error. |
| `RetentionRules.PlanExactly` | python-controlplane/src/controlplane/retention.py:158-228 | Which group goes, told by the listed objects and the run states alone: all of a run that no failure could end, that is no newest failure and that keepRuns others precede by their newest objects; else with a manifest when keepCommittedPerRun manifest-bearing groups of the run precede it; else when all its objects are older than the grace period. |
| `RetentionRules.ActiveExactly` | python-controlplane/src/controlplane/retention.py:158-163 | The active states are exactly those that a failure can end. |
| `RetentionRules.RecoveringSheltered` | python-controlplane/src/controlplane/retention.py:158-180 | A failure that begins recovery leaves its run sheltered from retention. |
| `RetentionRules.RecoveringKeepsItsPoint` | python-controlplane/src/controlplane/retention.py:158-223 | So a pass after such a failure leaves the checkpoint the run recovers from if and only if fewer than `keep_committed_per_run` manifest-bearing checkpoints of the run are newer. |
| `Retention.GroupByCheckpoint` | python-controlplane/src/controlplane/retention.py:145-149 | The grouping loop: every group in order of discovery with exactly its objects; keys with fewer than three segments are in none. |
| `Retention.RetainedRuns` | python-controlplane/src/controlplane/retention.py:158-192 | Retained are active runs, all runs tied for the newest failure, and the runs with fewer than `keep_runs` more recently written ones. |
| `Retention.ShelteredRuns` | python-controlplane/src/controlplane/retention.py:158-180 | Active runs, and every exact tie for the newest FAILED run. |
| `Retention.ExpendableOf` | python-controlplane/src/controlplane/retention.py:207-228 | In a retained run go exactly the manifest-bearing checkpoints with at least `keep_committed_per_run` newer ones, and the manifest-less ones older than the cutoff. |
| `Retention.ObjectsOfPlan` | python-controlplane/src/controlplane/retention.py:230-230 | The flattened delete list holds each object of each planned group exactly once. |
| `Retention.DeleteBatches` | python-controlplane/src/controlplane/retention.py:231-239 | On success the batches are the 1000-item slices of the list; after an error only listed objects can be gone. |
| `Retention.BucketAfterPass` | python-controlplane/src/controlplane/retention.py:230-239 | When all planned objects are gone, the bucket has lost exactly the planned groups. |
| `Ranking.NewestFirst` | python-controlplane/src/controlplane/retention.py:216-219 | The stable newest-first sort: a permutation ordered by time and, among equals, by discovery. |
| `Ranking.FirstPlaces` | python-controlplane/src/controlplane/retention.py:191-222 | The first n places are exactly the entries with fewer than n entries ahead, so keeping a prefix is keeping by rank. |
| `RetentionFixpoint.SecondPassExactly` | python-controlplane/src/controlplane/retention.py:181-228 | With the listing in key order, the same clock and records, a second pass finds something to delete if and only if a run that still has objects is no longer retained; inside a retained run nothing more is removed. |
| `SecondPass.SecondPassOfBucket` | python-controlplane/src/controlplane/retention.py:181-239 | The listing the previous row speaks of is a listing by key of the bucket the first pass leaves, and the second pass leaves that bucket as it is if and only if every run that still has objects is still retained. |
| `SecondPass.RunTwice` | python-controlplane/src/controlplane/retention.py:137-250 | Two calls of the pass: when both succeed, the bucket is the one after the first, and nothing is counted by the second, under exactly that condition. |
| `RetentionFixpoint.SecondPassDeletesNothing` | python-controlplane/src/controlplane/retention.py:181-228 | Retention reaches a fixpoint in one pass when every run kept only for being recent, and not emptied, kept its newest object. |
| `RetentionFixpoint.RunRankImproves` | python-controlplane/src/controlplane/retention.py:181-192 | Such a run's rank can only improve. |
| `RetentionFixpoint.CommitRankImproves` | python-controlplane/src/controlplane/retention.py:216-223 | The rank of a kept checkpoint can only improve. |
| `RetentionFixpoint.RunOrderByKey` | python-controlplane/src/controlplane/retention.py:151-153 | In a listing by key the order in which runs are met is decided by their ids alone. |
| `RetentionFixpoint.SecondPassTakesCommitted` | python-controlplane/src/controlplane/retention.py:225-228 | Without that condition a second pass can delete a committed checkpoint: an abandoned upload that was the run's newest object goes in the first pass. |
| `RetentionFixpoint.ExampleOvertaken` | python-controlplane/src/controlplane/retention.py:181-228 | A concrete listing with which that happens. |
| `RecoveryPoint.RecoveryPointKept` | python-controlplane/src/controlplane/recovery.py:222-230 | For active runs and runs tied for the newest failure, the restorable checkpoint recovery selects survives an error-free pass, still selected and restorable, if and only if fewer than `keep_committed_per_run` manifest-bearing checkpoints of the run are newer. |
| `RecoveryPoint.RecoveryPointSafe` | python-controlplane/src/controlplane/retention.py:216-223 | It always survives when the run's modification times strictly follow its steps and at least one is kept. |
| `RecoveryPoint.RecoveryPointDisplaced` | python-controlplane/src/controlplane/retention.py:211-223 | When one is kept, any newer manifest-bearing group, even of a FAILED record, displaces it: record and manifest are gone. |
| `RecoveryPointLost.RunLosesItsRecoveryPoint` | python-controlplane/src/controlplane/retention.py:207-223 | A concrete run of the system (second commit succeeded but its answer was lost) after which a pass over its final run records that keeps one checkpoint per run leaves the newest-failed run without any committed checkpoint. |
| `Heartbeats.HeartbeatManager.Register` | python-controlplane/src/controlplane/heartbeat.py:177-182 | A fresh live lease, also for an id that has one: the replaced lease is off the map with its mark as it was; all other leases stay. |
| `Heartbeats.HeartbeatManager.Unregister` | python-controlplane/src/controlplane/heartbeat.py:189-196 | The lease is off the map and its object dead, for scans that still hold it; all others stay as they are. |
| `Heartbeats.HeartbeatManager.RecordHeartbeat` | python-controlplane/src/controlplane/heartbeat.py:203-213 | Renews a known lease, a live one by one Beat step of the lease machine in `Detection`; an unknown id changes nothing. |
| `WorkerManager.WorkerManager.constructor` | python-controlplane/src/controlplane/worker_manager.py:55-78 | A rehydrated manager has the records as index, exactly the ACTIVE workers leased, from now on and for the run of their record, members and counters rebuilt. |
| `WorkerManager.WorkerManager.RegisterWorker` | python-controlplane/src/controlplane/worker_manager.py:82-145 | The change of all three views in a registration with automatic or explicit rank, superseding the rank's holders first. |
| `WorkerManager.WorkerManager.DeregisterWorker` | python-controlplane/src/controlplane/worker_manager.py:147-169 | Field by field: DEREGISTERED in index and record, no lease, in no run's members; every other worker, lease and all counters as before. |
| `WorkerManager.WorkerManager.UpdateWorkerHeartbeat` | python-controlplane/src/controlplane/worker_manager.py:173-217 | Counts only for workers ACTIVE in the index, and then: time and step on record and in the index, the run's step raised, the worker's lease renewed by one Beat step of the lease machine in `Detection`; all other leases, workers and runs as before. Otherwise nothing changes. |
| `WorkerManager.RaisedToMaximum` | python-controlplane/src/controlplane/worker_manager.py:203-211 | A heartbeat with a positive step leaves its run at the maximum of the two steps, in its state, and no other run is touched. |
| `ViewChanges.RegisteredSelf` | python-controlplane/src/controlplane/worker_manager.py:96-140 | The new worker is active everywhere, under the given rank, or one above all ranks ever given out in its run (0 for the first). |
| `ViewChanges.RegisteredOthers` | python-controlplane/src/controlplane/worker_manager.py:104-128 | An explicit rank ends as SUPERSEDED whoever active holds it in that run, and nobody else is touched. |
| `ViewChanges.DeregisteredExactly` | python-controlplane/src/controlplane/worker_manager.py:147-169 | What a departure does to every worker in every view. |
| `ViewChanges.BeatenExactly` | python-controlplane/src/controlplane/worker_manager.py:184-201 | What a heartbeat does to every worker in every view. |
| `ViewChanges.ExpiredExactly` | python-controlplane/src/controlplane/heartbeat.py:320-341 | An expired lease makes its worker DEAD in record and index, and only that one. |
| `ViewChanges.GroupRestartedExactly` | python-controlplane/src/controlplane/api/rest.py:247-255 | A group restart, worker by worker: records of active workers of the run and index entries of all become DEAD, leases go, other runs' workers stay. |
| `WorkerViews.AlwaysAgree` | python-controlplane/src/controlplane/worker_manager.py:82-217 | After every sequence of registrations, heartbeats, departures, expiries, group restarts and manager restarts: ACTIVE in the record iff ACTIVE in the index iff live lease; one active worker per rank; every counter just above all ranks ever registered. |
| `WorkerViews.NeverActiveAgain` | python-controlplane/src/controlplane/worker_manager.py:184-194 | Once not ACTIVE, a worker id is never ACTIVE again in any view. |
| `WorkerViews.RegisteredAgree` | python-controlplane/src/controlplane/worker_manager.py:96-132 | A registration keeps agreement and rank uniqueness. |
| `WorkerViews.RehydratedAgree` | python-controlplane/src/controlplane/worker_manager.py:55-78 | A rehydrated manager has the same workers, counters, live leases and active members as the one it replaces. |
| `WorkerViews.GroupRestartedAgree` | python-controlplane/src/controlplane/api/rest.py:247-255 | A group restart leaves no active worker and no lease of the run, and keeps agreement although DEAD replaces SUPERSEDED locally. |
| `Detection.NeverDeclared` | python-controlplane/src/controlplane/heartbeat.py:312-341 | A worker whose gaps never exceed the threshold is never declared dead, whenever scans come. |
| `Detection.DeclaredExactly` | python-controlplane/src/controlplane/heartbeat.py:312-320 | It is declared dead exactly when some scan finds it silent for longer than the threshold. |
| `Detection.DeclaredOnce` | python-controlplane/src/controlplane/heartbeat.py:315-322 | It is declared dead at most once. |
| `Detection.DetectedInWindow` | python-controlplane/src/controlplane/heartbeat.py:303-341 | Silent since t, with scans at most p apart: declared dead exactly once, at a scan in (t+d, t+d+p]. |
| `GroupFailure.RecoveryManager.AbortPendingCheckpoints` | python-controlplane/src/controlplane/recovery.py:158-176 | Exactly the run's open checkpoints become FAILED. |
| `GroupFailure.RecoveryManager.RecordRecoveryCheckpoint` | python-controlplane/src/controlplane/recovery.py:222-230 | Records a committed checkpoint of the highest step, or none if there is none. |
| `GroupFailure.RecoveryManager.HandleFailure` | python-controlplane/src/controlplane/recovery.py:106-156 | Terminal and never-started runs are left alone; others go through FAILED (unless there already) and RECOVERING, lose their open checkpoints and are handed to the supervisor once. |
| `GroupFailure.RecoveryManager.OnWorkerFailure` | python-controlplane/src/controlplane/recovery.py:71-102 | The callback does that and leaves no run marked as being recovered. |
| `GroupFailure.HandledExactly` | python-controlplane/src/controlplane/recovery.py:106-156 | A failure state by state: RUNNING, CHECKPOINTING, COMMITTED and RECOVERING go through FAILED, where recovery is configured to RECOVERING; FAILED only to RECOVERING; never started or ended runs, and all other runs, stay. |
| `GroupFailure.FailureIsFailStep` | python-controlplane/src/controlplane/recovery.py:106-156 | What the failure handler does to runs and checkpoint records is the protocol's failure step, or nothing. |
| `GroupRestart.GroupSupervisor.ScheduleWorkerGroupRestart` | python-controlplane/src/controlplane/api/rest.py:195-318 | Exactly when the slot is claimed, in terms of gate, slot and clock, what is returned, and what it leaves in slot and views: only a claiming call touches workers, and it retires the whole group. |
| `GroupRestart.GroupSupervisor.MarkGroupDead` | python-controlplane/src/controlplane/api/rest.py:247-255 | The marking loop retires every worker of the run in all three views. |
| `GroupRestart.GroupSupervisor.ReconcileOnce` | python-controlplane/src/controlplane/api/rest.py:321-349 | One round asks for a restart exactly when the supervised run is RECOVERING with some but too few active workers, and then is such a call; otherwise it changes nothing. |
| `ExpiryScan.FailureMonitor.CheckWorkers` | python-controlplane/src/controlplane/heartbeat.py:312-349 | One scan over a stale snapshot of the leases, while the callbacks remove leases and workers: it is the sequence of lease steps in the order of the snapshot, which holds each leased worker once; the account of every run is kept; no overdue worker has a live lease afterwards and only overdue ones were declared dead. |
| `ExpiryScan.FailureMonitor.CheckLease` | python-controlplane/src/controlplane/heartbeat.py:312-341 | Each lease of the snapshot takes one Scan step of the lease machine in `Detection`, also one that was removed or killed meanwhile. |
| `FailureAccount.OneRecoveryExactly` | python-controlplane/src/controlplane/heartbeat.py:312-341 | A run that was RUNNING, CHECKPOINTING, COMMITTED or RECOVERING and has overdue workers gains exactly one FAILED and one RECOVERING in a scan if and only if its first restart call claims the slot or just one of its workers was overdue. |
| `ScanOrder.OneRecoveryAlways` | python-controlplane/src/controlplane/api/rest.py:205-245 | Decided before the scan, for every order of the leases and whichever restart threads can be started: such a run fails and starts to recover exactly once if and only if the slot is open to it (shared run id, containers, free slot, retry interval) and to no other run with overdue workers, or just one of its workers is overdue. |
| `ScanOrder.OneRecoveryInOrder` | python-controlplane/src/controlplane/heartbeat.py:312-341 | The same for a given order of the leases: if and only if the first overdue worker of the order whose run can fail and claim the slot is one of its own, or just one of its workers is overdue. |
| `ScanOrder.FirstClaimerClaims` | python-controlplane/src/controlplane/api/rest.py:232-245 | In every scan in that order the run of the first worker that may claim the slot claims it, by the only call made for that run. |
| `ScanOrder.OnlyFirstClaims` | python-controlplane/src/controlplane/api/rest.py:232-245 | When every restart thread can be started, no other run claims the slot in that scan. |
| `ScanOrder.StepsScanned` | python-controlplane/src/controlplane/heartbeat.py:312-349 | Every sequence of lease steps that looks at all overdue workers keeps the account of every run. |
| `ScanOrder.SupervisedHasNoRival` | python-controlplane/src/controlplane/api/rest.py:205-214 | Under a supervised run id no other run can claim the slot. |
| `FailureAccount.FailsPerWorker` | python-controlplane/src/controlplane/recovery.py:131-156 | A run to which the slot is closed on entry fails and recovers exactly once per overdue worker, and the supervisor is called as often. |
| `FailureAccount.CallsOfRun` | python-controlplane/src/controlplane/heartbeat.py:330-341 | A run that can fail and has overdue workers is called for at least once and at most once per overdue worker, and exactly so often when no call claims the slot. |
| `FailureAccount.ClaimEmptiesGroup` | python-controlplane/src/controlplane/api/rest.py:247-255 | If the first call claims the slot it is the only one, and no worker of the run is active or leased any more. |
| `FailureExample.TwoWorkersFailTwice` | python-controlplane/src/controlplane/heartbeat.py:312-349 | A run through the classes: two overdue workers of a run that is not the supervised one; the scan persists FAILED, RECOVERING, FAILED, RECOVERING. |
| `RestartSlot.AlwaysSafe` | python-controlplane/src/controlplane/api/rest.py:232-245 | However schedulers and restart threads interleave, at most one restart is in flight and the slot names its run exactly while one of them carries it. |
| `RestartSlot.SlotFreedInTime` | python-controlplane/src/controlplane/api/rest.py:247-318 | On every path (marking error, thread-start failure, three failed attempts, success) the holder lets go with its sixth move at the latest. |
| `RestartSlot.EndFrees` | python-controlplane/src/controlplane/api/rest.py:296-302 | The ending locked section empties the slot and keeps the time of the attempt only after a success. |
| `RestartSlot.RetryAfterFailure` | python-controlplane/src/controlplane/api/rest.py:239-245 | After an unsuccessful end the next call claims the slot if and only if the clock shows at least 30 seconds; before that it answers true without restarting anything. |
| `RestartSlot.RetryAfterSuccess` | python-controlplane/src/controlplane/api/rest.py:239-245 | After a success the run waits 30 seconds from its claim, unless it is resumed first. |
| `RestartSlot.AnswerMeans` | python-controlplane/src/controlplane/api/rest.py:232-245 | What each answer of a call says about who has the slot. |
| `Training.StepSafe` | training-harness/train.py:668-751 | Every move of worker or system keeps: in training the last multiple of the interval is saved; in a save at s, s minus the interval is. |
| `Training.SavedNeverDecreases` | training-harness/train.py:393-427 | No move lowers the highest committed step. |
| `Training.CommitSaves` | training-harness/train.py:410-411 | A successful commit, even of an older record than the one just uploaded, commits a step at least as high. |
| `Training.BoundedLostWork` | training-harness/train.py:668-751 | A worker that was at step s, also inside a save, resumes after any crash at an r with s - r at most the interval. |
| `Training.SavedStepIsKept` | training-harness/train.py:393-427 | A save reported successful has left a committed checkpoint of at least its step, and no later restart resumes below it. |
| `TrainingRetention.PlanKeepsProgressExactly` | python-controlplane/src/controlplane/retention.py:158-228 | For an active or newest-failed run a planned pass keeps the open checkpoints and a recovery point if and only if each open one is within the grace period, or has a manifest among the newest, and a committed checkpoint of the highest step is among the newest with a manifest. |
| `TrainingRetention.BoundedLostWorkWithRetention` | training-harness/train.py:668-751 | Bounded lost work and kept saves over runs in which retention passes, as the planner makes them from complete listings, meet that condition; nothing is assumed of what they delete. |
| `TrainingClient.SaveCheckpoint` | training-harness/train.py:365-427 | Trigger, upload, commit, as moves of the worker in `Training` that end at the saved step or in its death; success leaves a committed checkpoint of at least that step. On a reliable system the save of an idle run succeeds and leaves it idle. |
| `TrainingClient.LoadCheckpoint` | training-harness/train.py:430-498 | Loads the committed checkpoint of the highest step with this rank's or rank 0's bytes; starts afresh only when none is committed. On a reliable system this rank's own bytes come first, and loading succeeds when there are bytes. |
| `TrainingClient.Train` | training-harness/train.py:668-751 | The whole loop as a trail of the worker's own moves in `Training`, from its first step to its last or its death; a normal end is at the last step or the first stop request, with that step committed; on a reliable system an idle run always ends normally. |
| `TrainingWalk.NoMultiplePassed` | training-harness/train.py:706-735 | On every trail of a worker's own moves no multiple of the interval is left behind without a trigger, an upload and a successful commit for it. |
| `TrainingWalk.PassedIsSaved` | training-harness/train.py:706-735 | And from then on a checkpoint of at least that step is committed at every point of the trail. |
| `TrainingWalk.CrashLosesInterval` | training-harness/train.py:668-751 | A worker that dies anywhere on such a trail resumes within one interval. |
| `Rendezvous.RanksAgree` | training-harness/train.py:145-226 | However ranks interleave, all that return in one generation return the same run id. |
| `Rendezvous.ReplacedOnlyIfOver` | training-harness/train.py:156-191 | The shared id is replaced only when there was none or the old run is confirmed missing or not resumable. |
| `Rendezvous.ErrorKeepsShared` | training-harness/train.py:174-178 | A transient lookup error of rank 0 never replaces the shared id. |

## Left out

- ShardWriter.WriteShardStream: says nothing about multipart uploads that a failed abort leaves open in an unreliable store, or about S3's limit of 10,000 parts and 32-bit part numbers.
- PrefixScan.EtcdKVStore.GetPrefix: the empty prefix, which etcd's gateway rejects, is excluded; the coordinator never asks for it.
- RoundTrip.DownloadReturnsUpload: asks that nothing more is uploaded to the checkpoint after its commit; such an upload makes it IN_PROGRESS again, and its failure deletes the objects. Before the first successful upload a control-plane death or a failed upload to the checkpoint ends the claim.
- Coordinator.Coordinator.UpdateCheckpointState: the time of the first commit (`committed_at`), which nothing in the model reads, is not set.
- ControlPlane.ControlPlane.ResumeRun: forgetting the run's last restart attempt is a move of `RestartSlot` and not of this handler.
- Training.BoundedLostWork: asks that only rank 0 uploads to and commits the run's checkpoints, that ids are not reused, and that retention keeps the run's open checkpoints and its recovery point (`BoundedLostWorkWithRetention` derives the last from the planner).
- TrainingRetention.BoundedLostWorkWithRetention: the condition on each pass is not derived from the training loop; a run that is neither active nor the newest failed may be pruned.
- TrainingClient.Train: one process, rank 0; optimizer steps, the barrier between ranks and the final `complete_run` request are not modelled, and stop requests are given by the steps at which they are seen.
- Rendezvous.RanksAgree: the RUN_ID override, whitespace around the stored id, and changes of the old run during the rendezvous are not modelled.
- ExpiryScan.FailureMonitor.CheckWorkers: one clock reading serves a whole scan, and restart threads and registrations that would run during it are not interleaved with it; leases are asked to name the run of their worker's record, as registration and rehydration file them.
- Transport, protobuf and JSON: records are datatypes, stored objects are bytes, a manifest value or a text; integer widths of the messages (u32 ranks, u64 steps) are unbounded.
- Key-value store outages: calls to the coordinator's store always answer; the suppressed errors that depend on them do not occur.
- Record fields nothing else reads: names, hostnames, metadata, creation and commit times; the manifest's creation time.
- UTF-8 encoding: keys are compared by character code, which is the order of their UTF-8 bytes.
- The channels inside the writer: chunk relay, checksum worker and uploader run one after the other on the same bytes.
- Sub-second time: clocks, thresholds and the retry interval are whole seconds.
- Backpressure, retries, bounded queues, metrics, telemetry, events and health checks: bookkeeping on which no promise about checkpoints, runs or workers depends.
- `collect_orphans`: nothing in the service calls it; retention removes orphans.
- `recover_run` and `_execute_recovery`: manual side entries to the same recovery steps.
- Demo endpoints, the docker commands of the supervisor, local-disk checkpoints, models, optimizers, datasets and the frontend.
