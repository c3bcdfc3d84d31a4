# lnx: the instance store, forks, pushes and their companions in Dafny

lnx runs Linux virtual machines whose state outlives the process that owns them.
This project models the parts of lnx that keep that state, in the order in which
the code issues its system calls, and proves what they promise.

* **The instance store** (`Layout`, `Journal`, `StoreModel`, `StoreWrites`, `RunDisks`,
  `Disks`, `Garbage`, `Instances`, `Stores`). Immutable *generations*, one committed record
  (`latest` and `Stopped | Running | Dirty`), private run directories, checkpoint
  references, the collector. A disk is what was durable at boot and everything issued
  since; a crash may keep any set of writes that the barriers allow. Every write and
  every sync may fail, which also stands for the process being killed there.
  `Instances` is the abstract machine: current state, checkpoints, open run.
* **The store as a refinement of an abstract machine** over any number of boots
  (`Refinement`), **what crashes and recovery mean** (`CrashTheorems`, `CutOff`,
  `RecoveryOps`), **checkpoints and restore** (`CheckpointOps`), **the VM owner and
  acknowledged writes** (`Accounts`, `OnDisk`, `Durability`, `Owners`, `CutStops`),
  **export and the publication of a fork** (`Exports`).
* **Two protocols without the instance lock**, as state machines over their system
  calls: readers pinning generations against the collector (`PinGc`), and forks staged,
  leased, published and cleaned up (`ForkStaging`). `PinProgress` and `ForkProgress` say
  what their steps come to: a pin granted, a fork published, garbage gone.
* **The content-addressed push** (`Hex`, `Frames`, `Manifests`, `Cas`, `Push`, and for
  concurrent uploaders `CasRace` and `PushRace`), with the sparse-file loops it shares
  (`Sparse`).
* **The cpio writer** (`Cpio`), **shell quoting** (`ShellQuote`), **multi-directory
  detach** (`Detach`).

`dafny verify dfyconfig.toml` checks everything.

## How to read it

`Journal.Allowed` is the whole assumption about drives and file systems. A sync orders
the earlier writes of its own file or directory before every later write, no more. A
`journaled` file system also keeps directory updates in the order they were issued,
which is the durability model of `specs/tla/README.md`. `CrashSafe(disk)` says that
every crash, at any point since boot and with any loss that `Allowed` permits, leaves
one whole committed record, complete generations and runs behind whatever the record
and the checkpoints name. `Valid(disk)` adds that everything committed is ordered
before whatever is written next. Every store operation keeps both; its contract says
what happened to the abstract instance if it succeeded, that a failure left the
instance as it was or as success would have, and that at most one of its writes
commits anything, so that every moment inside it looks like its start or its end.
`Err(Io)` occurs only if some write or sync can fail (`Fallible`), so without faults
each contract fixes the outcome.

Two promises of the source are false as stated, and the model says exactly when they
hold.

* The header of `src/store.rs` says that the barriers alone make a crash show the old or
  the new state. An operation cut off between a rename or an unlink and the sync of that
  directory leaves a crash-safe disk on which, without a journal, something visible is
  not yet ordered before what comes next, and the code goes on from there without
  syncing it. `CutOff` has the five ways it does: collecting a generation, or removing a
  run, after a cut-off record commit; committing a record, or a checkpoint, that names a
  generation whose publish was cut off; collecting after a cut-off checkpoint unlink.
  Each is crash safe if and only if the file system is journaled. An operation that
  returned leaves a `Valid` disk with or without one. `Owners` and `Refinement` run on a
  journaled file system.
* A guest write is acknowledged without a host sync, so a power loss may take it
  (`Owners.DispatchThenPowerLoss` takes the latest one, from any state). What counts as
  kept is what recovery makes of the disk (`Accounts.Kept`, `Accounts.RecoveryKeeps`): the
  final snapshot in place of an interrupted run, to which it rolls forward, and only where
  there is none the saved state and the dirty run's disk. A power loss goes back to one
  earlier moment of the boot and takes off the account exactly what recovery will not
  find there (`Owners.Machine.PowerLoss`). On a drive whose syncs wait, with the record
  synced, a write outlives every power loss if and only if it is in the run's final
  snapshot, where a power loss may leave that in place, and in the saved state or on the
  dirty run's disk when that file was last synced, where one may not. That is
  `Durability.SurvivesIff`, which also says how far back the snapshot's entry can go;
  `FinalDecides`, `UnsyncedFinalNeedsBoth` and `NoFinalDecides` are its cases. So the whole
  account is safe once a stop or a guest flush has returned, and already once the publish
  of the final snapshot has.

What does hold, over every power loss, is that nothing but an explicit choice of the user
gives up what was not lost. Every capture flushes the run's disk before it copies it, and
every run is synced before it is named, so in every crash state whose record names a run,
whatever recovery keeps of the account is on that run's disk (`OnDisk.AccountIsOnDisk`).
`recover --keep` and the deletion of a checkpoint, which do not look for a final snapshot
and may collect it, therefore give up nothing (`Owners.Play`, `CutStops`).

## Model

| member | source | states |
|---|---|---|
| Journal.CrashAfterPut | src/store.rs:18-23 | After one more write a crash shows a state possible before it, or that write on top of a state with everything it was ordered after |
| Journal.EarlierCrashStaysPossible | src/store.rs:18-23 | Whatever a crash could show at some moment it can still show later, so invariants over the final log cover a crash at every point |
| Journal.ForcedShowsStable | src/store.rs:123-133 | A synced location looks the same in every crash state that keeps a later write |
| Journal.FlushedSurvives | src/store.rs:132-132 | Where a sync waits for the drive, whatever it covered survives a power loss |
| Journal.OneCommitBetween | src/store.rs:146-169 | Between two moments with one commit point, every moment shows the committing entries of the start or of the end |
| StoreModel.PublishedIsWellFormed | src/store.rs:762-792 | The manifest that publishing writes lists exactly the regular files of the directory with their sizes |
| StoreWrites.StagingWrite | src/store.rs:744-751 | Writing a generation that was never published cannot spoil any crash state |
| StoreWrites.PublishWrite | src/store.rs:793-798 | Renaming a synced staging directory into place shows a complete generation in every crash state that has the rename |
| StoreWrites.RecordWrite | src/store.rs:147-169 | The rename that commits a record: in every crash state that has it, what the record names is complete |
| StoreWrites.RefWrite | src/store.rs:924-967 | The same for linking or unlinking a checkpoint reference |
| StoreWrites.CollectWrite | src/store.rs:1041-1048 | Removing a generation that the settled record and references do not name cannot spoil any crash state |
| StoreWrites.GuestWrite | src/store.rs:606-619 | The guest changing its private copy in place keeps every crash state good |
| Disks.RebootIsSafe | src/store.rs:18-23 | Whatever a power loss leaves is a crash-safe store again, and on a journaled file system ready for the next operation |
| Instances.CheckpointsKept | src/store.rs:755-799 | Checkpoints keep their contents while published contents do not change |
| Garbage.ReferencedIsNamed | src/store.rs:936-1000 | The collector's referenced set is exactly what the record or a surviving checkpoint names |
| Garbage.CollectionIsExact | src/store.rs:993-1052 | After collection the generations are exactly those in place that are named or pinned, the only run is the one the phase names, and no staging or trash is left |
| Stores.ReadGenerationIs | src/store.rs:478-505 | On a valid store the read check accepts exactly the generations in place, and they hold what they were published with |
| Stores.Store.constructor | src/store.rs:382-387 | An empty instance directory is a valid store without a record |
| Stores.Store.SyncOne | src/store.rs:125-138 | One sync, which may fail |
| Stores.Store.Stage | src/store.rs:744-751 | A new empty staging directory; nothing else changes |
| Stores.Store.FillStaging | src/store.rs:818-822 | The staging directory holds the copied files on top of what it held |
| Stores.Store.StageFiles | src/store.rs:744-751 | A fresh staging directory with a copy of the files, and nothing else changed |
| Stores.Store.SyncTree | src/store.rs:1065-1078 | Every file of the tree and every entry in it is synced |
| Stores.Store.ListFiles | src/store.rs:762-772 | The listing is exactly the top-level regular files with their sizes |
| Stores.Store.Publish | src/store.rs:755-799 | The generation is in place with exactly the staged files, manifest and pin, or was never published; refused exactly without a root disk; once it returned, its entry is synced |
| Stores.Store.RenameIntoPlace | src/store.rs:794-798 | Rename and directory sync of a synced tree; if the sync fails the generation is still complete |
| Stores.Store.CommitRecord | src/store.rs:147-169 | The record is the old one or the new one, never a mix, and the new one if it succeeded |
| Stores.Store.CommitRef | src/store.rs:924-933 | The same for one checkpoint reference; the others do not change |
| Stores.Store.UnlinkRef | src/store.rs:964-968 | The reference is gone or as it was; the others do not change |
| Stores.Store.MakeRun | src/store.rs:606-608 | A fresh empty run directory that nothing names |
| Stores.Store.PrepareRun | src/store.rs:606-619 | A private synced copy that a record may name; nothing else changes |
| Stores.Store.SyncRun | src/store.rs:618-619 | The run directory, its files and its parent are synced |
| Stores.Store.RemoveRun | src/store.rs:1003-1013 | Removes a run that the record does not name, touching nothing else |
| Stores.Store.RemoveGen | src/store.rs:1020-1024 | Removes a staging or trash directory, touching nothing else |
| Stores.Store.TrashGen | src/store.rs:1041-1048 | Moves an unnamed generation to trash and removes it |
| Stores.Store.CollectRuns | src/store.rs:1003-1013 | Leaves no run but the one the record names |
| Stores.Store.CollectGens | src/store.rs:1015-1050 | Leaves no staging, no trash and no unnamed unpinned generation |
| Stores.Store.CollectGarbage | src/store.rs:993-1052 | Removes only garbage, leaves none, and changes neither the record, the checkpoints nor the instance |
| Stores.Store.FinalGenerationOf | src/store.rs:556-568 | The newest published final snapshot of the run, or none if there is none |
| Stores.Store.CommitAndCollect | src/store.rs:803-807 | The commit took effect or changed nothing; garbage goes only afterwards |
| Stores.Store.Recover | src/store.rs:531-553 | Rolls forward to the newest final snapshot, drops a run that never served, or refuses exactly a dirty run without one; never falls back to an older state silently |
| Stores.Store.NewGeneration | src/store.rs:744-799 | Staging and publishing change nothing the user sees; on success the generation holds the files, and its manifest the parent and the origin it was given |
| Stores.Store.CommitLatest | src/store.rs:803-807 | The generation becomes the saved state of a stopped instance; refused exactly when it is not in place |
| Stores.Store.SaveNew | src/store.rs:818-830 | Publish and commit: the files are the saved state, recorded with their parent and origin, or nothing changed |
| Stores.Store.Initialize | src/store.rs:517-527 | The first saved state is what was staged, recorded as an image without a parent; refused exactly when a record exists |
| Stores.Store.ReadBase | src/store.rs:602-605 | The files a run is given: those of the chosen generation, or of the saved state; refused exactly for a chosen one not in place |
| Stores.Store.BeginRun | src/store.rs:593-629 | A run open on a private copy of the saved state or of `from`: exactly the files that manifest lists and the host-share state, as published, synced at every moment that the record names it; the saved state stays; refusals exactly as coded |
| Instances.PayloadCopiesListed | src/store.rs:609-617 | A copy of a generation has every file its manifest lists and the host-share state, with their contents, and nothing else |
| Stores.Store.MarkDirty | src/store.rs:712-729 | The open run becomes dirty and nothing else changes; refused exactly for another run |
| Stores.Store.AdvanceLatest | src/store.rs:636-653 | The saved state becomes the generation while the run goes on, as dirty as it was |
| Stores.Store.AbandonRun | src/store.rs:733-741 | Closes a run that never served a command, keeping the saved state; refused exactly otherwise |
| Stores.Store.DiscardRun | src/store.rs:834-843 | Closes a dirty run, keeping the saved state; refused exactly otherwise |
| Stores.Store.Salvage | src/store.rs:811-831 | The saved state has the dirty run's root disk, its host-share state if and only if the run has one, and nothing else; its manifest names the run and the state it replaced; cut off earlier, or refused for want of a disk once it has staged a directory, it leaves the run dirty and recovery's choice unchanged |
| Stores.SalvagedMeans | src/store.rs:818-822 | Whatever salvages a run, the root disk and the host-share state of the run are saved, and nothing else |
| Stores.Store.DropMemory | src/store.rs:891-916 | The saved state keeps its root disk and its host-share state and nothing else, recorded as made from the one before; nothing happens exactly when it has no memory |
| Stores.DroppedMeans | src/store.rs:908-912 | Whatever drops the memory of a saved state keeps its root disk and its host-share state, and nothing else |
| Stores.Store.ApplyEdits | src/store.rs:870-870 | The staging directory holds the edited copy |
| Stores.Store.Derive | src/store.rs:847-874 | The saved state becomes the edited copy of itself, recorded as made from the one before, or nothing changed |
| Stores.Store.ImportDir | src/store.rs:657-676 | A new generation with exactly the regular files and the host-share state of a foreign directory, and the parent and origin given |
| Stores.Store.AddCheckpoint | src/store.rs:924-933 | One checkpoint more, naming what its generation holds; refused exactly when that is not in place |
| Stores.Store.RemoveCheckpoint | src/store.rs:964-969 | One checkpoint fewer, then only garbage removed, which does not include what is pinned or still named; the open run and the saved state stay |
| Stores.Store.GuestWrites | src/store.rs:606-619 | One more write on the open run's private disk and nowhere else |
| Refinement.RunOp | src/store.rs:517-969 | One store operation, wherever it is cut off, is one step of the abstract machine: whole, or nothing if it failed; it fails if the store refuses it and otherwise only by a fault; only adding or removing a checkpoint changes the checkpoints, by that one; and a recorded dirty run ends only by a discard, a salvage, a commit, or rolled forward to a final snapshot of its own that was in place |
| Refinement.RunInitialize | src/store.rs:517-527 | An instance appears with the staged image as its saved state, or not at all; where there is one it is refused |
| Refinement.RunNext | src/store.rs:18-23 | An operation, or a power loss with any writes the drive may keep: the machine steps, or goes back to a state since the last boot |
| Refinement.RunAll | src/store.rs:517-969 | Every history of store operations and power losses, from the first initialize on, with any pins at each operation, is state by state a run of the abstract machine in which a power loss returns to the saved state, checkpoints and open run of a state since the last boot, and without faults exactly the operations that the state then refuses fail |
| Refinement.BootRefines | src/store.rs:18-23 | A power loss in a boot, on a journaled file system, brings back the saved state, checkpoints and phase of one state that boot passed through, and takes nothing off the shelf |
| Refinement.RunRecover | src/store.rs:531-553 | Recovery keeps a stopped instance, rolls an interrupted run forward to its own final snapshot, or drops one that never served |
| Refinement.RunBegin | src/store.rs:593-629 | Opens a run on the saved state or on the chosen one |
| Refinement.RunOnRun | src/store.rs:636-843 | Marking dirty, advancing, abandoning, discarding and salvaging are the machine's steps |
| Refinement.RunDerive | src/store.rs:847-874 | Editing is the machine's step |
| Refinement.RunDropMemory | src/store.rs:891-916 | So is dropping memory, of exactly the saved states that have any |
| Refinement.RunCommit | src/store.rs:803-807 | So is committing a generation |
| Refinement.RunCollect | src/store.rs:993-1052 | And collecting, which changes nothing |
| Refinement.RunOnRefs | src/store.rs:924-969 | So are adding and removing a checkpoint, with or without an instance |
| Refinement.RunPublish | src/store.rs:744-799 | Publishing puts one saved state on the shelf and changes nothing the user sees |
| Refinement.RunGuestWrite | src/store.rs:606-619 | A guest write changes the open run's disk and nothing else |
| CrashTheorems.PowerLossShowsOneMoment | src/store.rs:18-23 | On a journaled file system a power loss, whatever it loses, shows the record, checkpoints, saved states and final snapshots of one earlier moment, and at least what had been synced of each run's disk by then |
| CrashTheorems.MomentIsBeforeOrAfter | src/store.rs:146-169 | At every moment inside an operation what is committed is what was committed before it or after it |
| CrashTheorems.PowerLossIsAtomic | src/store.rs:18-23 | A power loss during or after an operation, on a journaled file system, shows what was committed earlier, before it, or after it |
| CrashTheorems.ReturnedOperationsAreDurable | src/store.rs:125-138 | Where syncs wait for the drive, every power loss keeps the record, each checkpoint and each generation that has nothing pending, on any file system; without a journal that is everything a returned operation committed |
| CutOff.CollectingAfterCutCommit | src/store.rs:147-169 | Collecting a generation after a record commit cut off before its directory sync is crash safe if and only if the file system is journaled |
| CutOff.RemovingRunAfterCutCommit | src/store.rs:1003-1013 | So is removing the run that the old record names |
| CutOff.CommittingAfterCutPublish | src/store.rs:536-538 | Committing a record that names a generation whose publish was cut off before its directory sync, as recovery does, is crash safe if and only if the file system is journaled, even with that record synced |
| CutOff.NamingAfterCutPublish | src/store.rs:924-933 | So is naming it by a checkpoint |
| CutOff.CollectingAfterCutUnlink | src/store.rs:964-969 | Collecting after a checkpoint unlink cut off before its directory sync is crash safe if and only if the file system is journaled |
| CutOff.CutCommitLosesLatest | src/store.rs:803-807 | Without a journal some survivor has the old record naming a generation already in the trash |
| RecoveryOps.RecoverTwice | src/store.rs:531-568 | After recovery the instance is stopped and recovering again is Clean and changes nothing; a refusal changes nothing and names the run that `crashed_run` names |
| CheckpointOps.Resolve | src/checkpoints.rs:117-129 | Found exactly for one listed match by id or name, NotFound for none, Ambiguous for several |
| CheckpointOps.Create | src/checkpoints.rs:85-99 | One checkpoint more, holding the saved state; refused exactly without one |
| CheckpointOps.Prune | src/checkpoints.rs:171-175 | Removes exactly the older before-restore checkpoints; cut off, some of them; what the newest names stays named at every moment |
| CheckpointOps.Restore | src/checkpoints.rs:152-184 | The target is saved and exactly one before-restore names what it replaced, every other checkpoint being as it was; from recovery on the replaced generation is named at every moment, wherever it stops |
| CheckpointOps.NamedAfterPowerLoss | src/checkpoints.rs:152-184 | A power loss at any of those moments, on a journaled file system, leaves the replaced generation named and complete |
| CheckpointOps.RestoreAndUndo | src/checkpoints.rs:144-184 | Restoring the before-restore checkpoint brings the original generation back; only a fault can prevent it |
| RunDisks.SurvivorIsPast | specs/tla/README.md:169-174 | A crash shows each location as it was at one moment, not before the last sync that waited for it |
| RunDisks.MomentHasSynced | specs/tla/README.md:169-174 | On a journaled file system a crash shows the directory entries of exactly one earlier moment, and of each run's disk at least what had been synced by then, whether or not syncs wait |
| RunDisks.CrashShowsEarlierImage | specs/tla/README.md:169-174 | Whatever a crash shows of a run's disk is an earlier state of it |
| RunDisks.FlushedShowsSynced | src/store.rs:132-132 | Where syncs wait, no crash shows less of a run's disk than was synced |
| RunDisks.SomeCrashShowsJustSynced | src/store.rs:125-138 | And some crash shows no more of it, with everything else as it was |
| RunDisks.EntryIsPast | specs/tla/README.md:169-174 | Where syncs wait, a power loss shows no older entry of a directory than the one when the last synced directory update was issued, or without a journal when that directory was last synced |
| RunDisks.SomeCrashGoesBack | specs/tla/README.md:169-174 | And some power loss shows that of any moment since, with no more of a run's disk than was synced |
| Accounts.RecoveryKeeps | src/store.rs:531-553 | Whatever recovery did, the saved state then has exactly the writes that were kept before it |
| Accounts.RecoveredSafe | src/store.rs:531-553 | Recovery loses nothing on the account, after any power loss too |
| Accounts.BookFinal | src/runner.rs:2309-2350 | A final snapshot holds every write of the account that its run's disk or a saved state beside the run has, and is the only one of its run |
| Accounts.BookRebooted | specs/tla/README.md:165-176 | What the account relies on holds again after any power loss, for every final snapshot ever published |
| OnDisk.AccountIsOnDisk | specs/tla/README.md:321-322 | In every crash state whose record names a run, what recovery keeps of the account, from a final snapshot or the saved state, is on that run's disk |
| OnDisk.FlushCaptured | src/runner.rs:3443-3460 | Once the run's disk is flushed, publishing a capture of it, final or not, keeps that so at every moment |
| OnDisk.FlushAdvanced | src/store.rs:636-653 | So does making the capture the saved state beside the run |
| OnDisk.FlushStarted | src/store.rs:606-619 | So does starting a run, which is synced before it is named |
| OnDisk.FlushRebooted | specs/tla/README.md:165-176 | After a power loss it holds afresh |
| Owners.Machine.constructor | src/runner/session.rs:35-60 | Nothing acknowledged yet, nothing given up, nothing lost |
| Owners.Machine.Create | src/store.rs:517-527 | The image becomes the saved state of a new instance; where there is one nothing changes; refused only there, or for want of a root disk |
| Owners.Machine.TakeOver | src/runner/session.rs:63-72 | Recovers, and imports exactly the regular files and the host-share state of what is given; the account stays; without faults only recovery or a missing root disk refuses |
| Owners.Machine.Begin | src/runner/session.rs:35-95 | Starts a clean run on a private copy of its base; without an explicit snapshot nothing is given up; without faults refused only where recovery refuses or there is no root disk to boot from |
| Owners.Machine.StartRun | src/runner/session.rs:73-95 | Opens a run on a stopped instance, refused only for want of its base; what is given up is what the chosen base lacks |
| Owners.Machine.Dispatch | src/runner/session.rs:107-119 | A write is acknowledged only after the run is marked dirty and before the barrier, and is then on the dirty run's disk |
| Owners.Machine.Background | src/runner.rs:2186-2192 | Unacknowledged guest writes change the run's disk and not the account |
| Owners.Machine.Flush | third_party/libkrun/src/devices/src/virtio/pmem/device.rs:81-102 | What is on the run's disk is then what a drive that waits will show at least, and includes the whole account; with the record synced the account outlives every such power loss |
| Owners.Machine.Capture | src/runner/capture.rs:49-64 | Flushes the run's disk and publishes a generation that has its root disk, its host-share state and the regular files of the memory they do not replace, and nothing else, with the origin asked for; nothing the user sees changes |
| Owners.Machine.SnapshotExit | src/runner/capture.rs:154-168 | The saved state is the capture: the open run's root disk and host-share state, the files of the memory, and nothing else; the run goes on unchanged |
| Owners.Machine.LiveCheckpoint | src/runner/capture.rs:132-142 | The new checkpoint, under its name, is the capture: the open run's root disk and host-share state, the files of the memory, and nothing else |
| Owners.Machine.PublishFinal | src/runner.rs:2309-2347 | After the barrier the run's disk is flushed and its final snapshot is in place: its root disk and host-share state, the files of the memory, and nothing else; nothing the user sees changes, and with the record synced the whole account outlives every power loss of a drive whose syncs wait |
| Accounts.CaptureMeans | src/runner.rs:3443-3460 | What is staged for a capture is published as the run's root disk and host-share state with the regular files of the memory that they do not replace, and nothing else |
| Owners.Machine.CommitFinal | src/runner/session.rs:151-158 | The saved state is what the final snapshot was published with, its record is synced and no run is open; failing, it leaves the account as it is |
| Owners.Machine.Finish | src/runner.rs:2309-2350 | After the barrier the saved state is the run's root disk and host-share state with the files of the memory, and nothing else; its record is synced, no run is open, and the whole account outlives every power loss of a drive whose syncs wait; failing, it leaves the account as it is |
| Owners.Machine.Abandon | src/runner/session.rs:192-219 | Ends a run without a final snapshot: closes a clean one, keeps the disk of a flushed dirty one, leaves any other alone; the account stays |
| Owners.Machine.KeepDisk | src/cli.rs:2415-2428 | `recover --keep` saves the crashed disk, which has the whole account, and gives nothing up, whatever power losses came before |
| Owners.Machine.Discard | src/cli.rs:2428-2433 | `recover --discard` leaves on the account exactly what the saved state holds, whatever the crashed disk or a final snapshot held; refused only where no run crashed |
| Owners.Machine.Checkpoint | src/checkpoints.rs:85-99 | The checkpoint, under its name, holds the saved state; refused only without one |
| Owners.Machine.DeleteCheckpoint | src/checkpoints.rs:133-144 | Forgets one checkpoint without recovering first; the account stays, even if a final snapshot is collected |
| Owners.Machine.RollBack | src/checkpoints.rs:152-184 | A restore leaves on the account exactly what recovery can still bring back, once it is done what the new saved state holds; a generation some checkpoint names is refused only where recovery refuses or nothing is saved |
| Owners.Machine.Edit | src/cli.rs:1670-1681 | Recovers, then edits the saved state; leaves on the account exactly what recovery can still bring back; without faults refused only where recovery refuses, nothing is saved, the edit failed or left no root disk |
| Owners.Machine.ForgetMemory | src/cli.rs:2452-2460 | Recovers, then drops memory; the account stays; without faults only recovery refuses |
| Owners.Machine.PowerLoss | specs/tla/README.md:165-176 | What is committed is that of one earlier moment; a write stays on the account if and only if recovery finds it: in the final snapshot in place then of the run recorded then, or without one in the saved state of that moment or on what survives of the disk of the run that was dirty then; and what stays is on the disk of any open run |
| Owners.Machine.Die | specs/tla/README.md:165-176 | A killed owner leaves the account as it is |
| Owners.DispatchThenPowerLoss | specs/tla/README.md:169-174 | From any state, a command served and then a power loss that takes just its write: the write is acknowledged and lost |
| Owners.PlayOne | src/runner.rs:2186-2350 | Any one event keeps the invariant; writes leave the account only by a discard, a restore, an edit or a start from another snapshot, or by a power loss, which takes it back to what recovery finds of one earlier moment of the boot; without faults every event that the state allows comes to what it is for |
| Owners.Play | src/store.rs:531-553 | Over every history of initializations, runs, commands, flushes, snapshots, kills, power losses and user choices, each acknowledged write is there for recovery (in the final snapshot it rolls forward to, or without one in the saved state or on the dirty run's disk), or was given up by the user, or was lost by a power loss; without power losses none is lost, and without a discard, restore, edit or start from elsewhere none is given up; no published generation changes |
| Owners.PlayFromNew | src/store.rs:517-553 | The same from an empty directory |
| Durability.SurvivesIff | specs/tla/README.md:165-176 | With the record synced, a write outlives every power loss of a drive whose syncs wait if and only if it is in the open run's final snapshot where that may come through, and in the saved state or on the dirty run's disk at its last sync where that may not |
| Durability.FinalDecides | src/store.rs:536-538 | With a final snapshot in place whose entry is synced, if and only if it is in that snapshot |
| Durability.UnsyncedFinalNeedsBoth | src/store.rs:793-798 | With one in place whose entry a power loss may take back, if and only if it is in that snapshot and also in the saved state or on the synced disk |
| Durability.NoFinalDecides | src/store.rs:539-549 | With none ever published, or one gone for good, if and only if it is in the saved state or on the synced disk; stopped, in the saved state |
| Durability.AccountSurvives | src/runner.rs:2309-2350 | After a stop that returned, a flush by the guest, or the publish of the final snapshot, the whole account outlives every such power loss |
| CutStops.CutStop | src/runner.rs:2347-2348 | From any running session, a command served, the final snapshot published and any power loss: if the snapshot came through, the command's write is on the account and on the run's disk |
| CutStops.StartAfterCutStop | src/store.rs:536-538 | Then the next start saves it |
| CutStops.KeepAfterCutStop | src/store.rs:811-831 | So does `recover --keep` |
| CutStops.DeleteAfterCutStop | src/checkpoints.rs:133-144 | And deleting a checkpoint leaves it on the run's disk |
| Exports.FillExport | src/store.rs:685-697 | Copies the listed files; a crash shows no record |
| Exports.SyncExport | src/store.rs:698-699 | The copied tree and its directory entry are synced |
| Exports.CopyOut | src/store.rs:680-699 | The copy is whole and synced, and nothing names it yet |
| Exports.Export | src/store.rs:680-708 | The new store's saved state is the generation's contents and the source is untouched; wherever it stops there is no record or the whole copy |
| Exports.CheckpointStays | src/store.rs:755-799 | A checkpoint that is still the same reference holds what it held |
| Exports.ForkIsAllOrNothing | src/checkpoints.rs:323-350 | Whatever a power loss leaves of a fork being published, on any drive, the destination is not there or is the whole instance |
| Exports.DoneForkSurvives | src/checkpoints.rs:340-343 | A fork reported done survives every power loss of a drive whose syncs wait |
| Exports.PublishFork | src/checkpoints.rs:323-350 | The rename and the sync of its parent have these two properties and change nothing in the instance |
| Exports.ForkAfter | src/checkpoints.rs:194-228 | Forked and published after any history, a checkpoint yields exactly what it named at the start, and still does after a power loss of a drive whose syncs wait |
| PinGc.InvStep | src/store.rs:972-1048 | Every step of every reader, the collector and the lock holder keeps the invariant |
| PinGc.PinnedStaysComplete | src/store.rs:972-989 | In every reachable state a pinned generation is in place with its published contents, and what was copied out is that |
| PinGc.NamedStaysInPlace | src/store.rs:1028-1030 | In every reachable state what the record or a checkpoint names is in place and whole |
| PinGc.PinHolds | src/store.rs:972-989 | From the moment a pin is granted until it is dropped, no step moves or changes the directory |
| PinProgress.PinIsGranted | src/store.rs:972-989 | Whatever other readers, the collector and the lock holder do meanwhile, short of moving the directory before the reader has its lock, each of its calls on a complete generation counts and the last one grants the pin |
| PinProgress.NextCall | src/store.rs:972-989 | Until then its next call can always be made, but for the wait on an exclusive lock |
| PinProgress.PinRuns | src/store.rs:972-989 | From any state without that lock, opening, locking, reading the manifest and checking each listed file in any order ends with the pin, and nothing else changed |
| PinProgress.PublishedCanBePinned | src/store.rs:755-989 | In every reachable state a generation just published can be pinned, with the files it was published with |
| PinProgress.CopiesAreKept | src/store.rs:972-989 | While the pin is held, the reader has exactly what it copied |
| PinProgress.GarbageGoes | src/store.rs:1031-1048 | A generation that nothing names and nobody has locked is moved and removed file by file, and nothing else changes |
| PinProgress.TrashGoes | src/store.rs:1020-1024 | What a killed collector left in the trash, from any state, the next one removes |
| PinProgress.NamingKeeps | src/store.rs:1028-1030 | What the record and the checkpoints are made to name stays in place with its files until they name something else |
| PinGc.LateLockIsRefused | src/store.rs:980-984 | A reader that opened the pin before the move to trash and locks it afterwards never gets a pin |
| ForkStaging.InvStep | src/checkpoints.rs:293-402 | Every step of every fork and cleaner, kills included, keeps the invariant |
| ForkStaging.LiveForkIsLeftAlone | src/checkpoints.rs:368-402 | In every reachable state no step of another process touches a live fork's staging directory |
| ForkStaging.DestinationsAreComplete | src/checkpoints.rs:323-350 | Each fork going by its own progress alone, every destination is absent or the complete copy of what was forked, and no step changes or removes it |
| ForkStaging.DeadForkIsRemoved | src/checkpoints.rs:368-402 | Every cleanup of a root that comes to its end, whatever other processes do meanwhile, has removed the directory of every fork that was dead when it began |
| ForkProgress.DoneForkIsPublished | src/checkpoints.rs:323-338 | In every reachable state, a done fork that sees its destination free, and still has it free after any steps of others, is published there whole and its staging directory is gone |
| ForkProgress.TakenWhenSeen | src/checkpoints.rs:323-329 | A destination already there is left as it is, and the fork discards its directory |
| ForkProgress.TakenMeanwhile | src/checkpoints.rs:330-338 | A destination that another fork took in between is left as it is, and the staging directory stays behind for a cleanup |
| ForkProgress.ForkIsPublished | src/checkpoints.rs:293-338 | Over the whole fork, whatever others do short of taking the destination, each call counts and with the last the destination holds the whole source, committed |
| ForkProgress.ForkCanFinish | src/checkpoints.rs:293-338 | From wherever it is, a fork whose destination is free can finish by itself in exactly the calls it has left |
| ForkProgress.FailedForkIsGone | src/checkpoints.rs:284-321 | A fork that fails removes its directory, publishes nothing and lets go of its lease |
| ForkProgress.LeasesReachable | src/checkpoints.rs:303-316 | In every reachable state each locked lease belongs to one live fork, and no two forks share one |
| ForkProgress.KilledForkIsDead | src/checkpoints.rs:284-291 | Killed at any point, a fork leaves a directory that no live process owns or can lock |
| ForkProgress.KilledForkIsRemoved | src/checkpoints.rs:368-402 | A later cleanup of its root that comes to its end has removed it, whatever other processes did meanwhile |
| Sparse.Next | src/sparse_copy.rs:185-195 | The first position at or after an offset that is data, or a hole |
| Sparse.SeekRun | src/server.rs:2111-2127 | The next run of data, the end, or an error, and an error only if a seek failed |
| Sparse.SeekDataExtents | src/server.rs:2105-2137 | Exactly the maximal runs of allocated bytes, in order |
| Sparse.FileExtents | src/server.rs:2064-2102 | Extents that leave out only zeros, and exactly the data extents where seeks work; a sparse image of 8 GiB or more reported dense or unseekable is refused, and nothing else |
| Sparse.Image.constructor | src/sparse_copy.rs:156-167 | A file just set to a length is one hole |
| Sparse.Image.WriteAt | src/sparse_copy.rs:208-213 | Writes exactly there and allocates exactly that |
| Sparse.Image.PunchHole | src/init.rs:657-695 | Zeroes and frees exactly the range, or does nothing |
| Sparse.CopyRange | src/sparse_copy.rs:198-215 | Exactly the range is copied and allocated, whatever the buffer size |
| Sparse.CopySparseExtents | src/sparse_copy.rs:156-182 | The copy has the bytes and the holes of its source |
| Sparse.CopyWithoutDenseLargeImage | src/sparse_copy.rs:144-240 | Either kind of copy equals its source, from 8 GiB on extent by extent, and the density check never refuses such a copy |
| Sparse.SparsenessIsKept | src/sparse_copy.rs:232-240 | From 8 GiB on a copy may take at most 64 MiB more on the host than its source |
| Sparse.AllocatedCounts | src/sparse_copy.rs:232-240 | What the check counts is the number of allocated bytes |
| Sparse.Image.ScanRange | src/init.rs:638-655 | Changes no byte, frees only zero chunks of the range, and leaves allocated only what is near data |
| Sparse.Image.ScanExtents | src/init.rs:591-607 | The same over every data extent, for short reads and failing seeks |
| Sparse.Image.PunchHoles | src/init.rs:558-588 | Hole punching never changes a byte read back, and where it works what stays allocated is within a block of data |
| Hex.HexFromBytes | src/server.rs:2434-2440 | The loop computes the lower-case text, high digit first |
| Hex.BytesFromHex | src/server.rs:2442-2450 | Accepts exactly 64 digits of either case and computes their bytes |
| Hex.HexRoundTrip | src/server.rs:2434-2450 | Text back to bytes inverts bytes to text |
| Hex.TextRoundTrip | src/server.rs:2434-2450 | Bytes back to text gives the text in lower case |
| Frames.WriteFrame | src/server.rs:2409-2421 | Appends exactly one frame, 32 bytes of digest, the length in four bytes with the least significant first, and the payload; refuses exactly bad names and oversized payloads |
| Frames.StreamRoundTrip | src/server.rs:2385-2421 | Reading inverts writing, with or without a stub at the end, if and only if no payload is empty |
| Manifests.ValidateBlocks | src/server.rs:1384-1397 | Accepts exactly valid, in-bounds, pairwise separate blocks, without leaving 64 bits |
| Manifests.ValidateManifest | src/server.rs:1373-1400 | Accepts exactly manifests with a valid name, safe distinct paths and valid blocks |
| Manifests.SafePathStaysBelow | src/server.rs:1190-1200 | A safe path joined to any directory stays below it |
| Manifests.JoinOfSplit | src/server.rs:1190-1200 | The components of a path have no slash, and joined by slashes are the path |
| Manifests.SplitOfJoin | src/server.rs:1190-1200 | And components without a slash come back from the path they make |
| Manifests.SafePathMeans | src/server.rs:1190-1200 | A path is safe exactly when it is relative and no way to put it together has a parent component |
| Manifests.NameStaysBelow | src/paths.rs:15-28 | A valid instance name is exactly one entry of whatever directory it is joined to |
| Manifests.NameMeans | src/paths.rs:15-28 | The names accepted, by the codes of their characters: letters, digits, hyphen, period and underscore, but not one or two periods alone |
| Cas.NameableMeans | src/server.rs:1426-1459 | A file can be made under exactly the paths without NUL that end neither in a slash nor in a dot component |
| Cas.AcceptedAreKept | src/server.rs:2385-2407 | Every accepted frame is stored under its digest and nothing stored is lost |
| Cas.KeptAreSent | src/server.rs:2385-2407 | Nothing is stored that was not there before or sent |
| Cas.CasStore.constructor | src/server.rs:2330-2332 | An empty store is good |
| Cas.CasStore.StoreBlock | src/server.rs:2348-2383 | Taken exactly when small enough and hashing to its name; the zero block and known blocks change nothing |
| Cas.CasStore.StoreStream | src/server.rs:2385-2407 | Stores the stream's frames up to the first bad one, and counts them exactly if all were good and it ended well |
| Cas.CasStore.CountBlocks | src/server.rs:1256-1267 | Running totals over one file's blocks |
| Cas.CasStore.StartUpload | src/server.rs:1216-1276 | `missing` lists each needed name that is not there once, never the zero name; known plus missing is the number of distinct names; byte totals saturate |
| Cas.CasStore.VerifyBlocksExist | src/server.rs:1402-1415 | Passes exactly when every block is there or zero |
| Cas.CasStore.ReconstructFile | src/server.rs:1426-1459 | Each block where the manifest says and zero everywhere else; fails exactly when a block is gone or too short |
| Cas.CasStore.ReconstructManifest | src/server.rs:1417-1459 | Succeeds if and only if every block can be read, every path ends in a name, no place is a directory of another, and a place named twice can be written again; then each place holds the last file that has it, and there is nothing else |
| Push.BlockName | src/server.rs:1805-1811 | The shortcut for zero blocks gives the digest's name |
| Push.CutExtent | src/server.rs:1795-1827 | The extent makes (len + 65535) / 65536 new blocks; the k-th starts 65536 k bytes into it and all but the last have 65536 bytes; each is named by what the file holds there |
| Push.CutFile | src/server.rs:1790-1828 | Valid blocks that leave out only zeros of the file: for each extent in turn its 64 KiB blocks and a shorter last one, and no others |
| Push.Open | src/server.rs:1784-1845 | Every file cut extent by extent into blocks of 64 KiB, and a source that hashes to its name for every block |
| Push.OpenedIsValid | src/server.rs:1373-1400 | Every manifest the client builds from a directory passes validation and fits into a directory |
| Push.Pack | src/server.rs:1679-1693 | The stream carries exactly the missing blocks in order; fails exactly on one the client does not have |
| Push.PackedArrives | src/server.rs:2385-2421 | The packed stream is read back whole and every block in it is stored |
| Push.MissingArrived | src/server.rs:1402-1415 | With the missing blocks stored, whoever else stored what, the existence check passes |
| Push.FileComesBack | src/server.rs:1426-1459 | A file cut, held and rebuilt is the file again, mode included, given no collision among the blocks involved |
| Push.PushInstance | src/server.rs:1647-1742 | Push is the identity on files, whatever the server holds and whatever whole streams others send before and after |
| CasRace.InvStep | src/server.rs:2348-2383 | Every step of every uploader, kills included, keeps the invariant |
| CasRace.EveryPathIsABlock | src/server.rs:2362-2383 | However uploaders interleave, a path that exists holds at most 64 KiB that hash to its name |
| CasRace.StoreOnlyGrows | src/server.rs:2362-2383 | No step removes a path or changes its digest, and only the rename fallback may change its bytes |
| PushRace.StepGrows | src/server.rs:2362-2383 | Where the digest tells the blocks apart, no step of any uploader takes a visible block away or changes it |
| PushRace.RunGrows | src/server.rs:2362-2383 | Nor does any run of other uploaders, which leaves this one where it was |
| PushRace.SharedStore.StoreBlock | src/server.rs:2348-2383 | Among other uploaders' calls, taken exactly when small enough and hashing to its name, and then there, whoever put it there |
| PushRace.SharedStore.Missing | src/server.rs:1247-1266 | Asks for no name that was there at the start or is zero, and for every needed one that is not there at the end |
| PushRace.SharedStore.StoreStream | src/server.rs:2385-2407 | Among other uploaders' calls, every accepted frame is there afterwards, and the count is exact |
| PushRace.SharedStore.VerifyBlocksExist | src/server.rs:1402-1415 | Passes if every block was there at the start, and only if it is at the end |
| PushRace.SharedStore.ReconstructFile | src/server.rs:1426-1459 | Blocks read at different moments rebuild the file that the final store has |
| PushRace.SharedStore.ReconstructManifest | src/server.rs:1417-1459 | So for the whole tree, if every block could be read at the start and the files fit |
| PushRace.PushAmongOthers | src/server.rs:1647-1742 | Push is the identity on files, whatever the server holds and however other uploaders' system calls fall between those made for the client |
| Cpio.Archive.constructor | src/initramfs.rs:31-32 | An empty aligned archive |
| Cpio.Archive.Pad4 | src/initramfs.rs:82-86 | Pads to a multiple of four with zeros |
| Cpio.Archive.AddEntry | src/initramfs.rs:53-80 | Appends exactly one entry and keeps alignment |
| Cpio.Archive.PadTo512 | src/initramfs.rs:37-39 | Pads to a multiple of 512 with fewer than 512 zeros |
| Cpio.EntriesAligned | src/initramfs.rs:53-86 | Every entry starts at a multiple of four |
| Cpio.HeaderFields | src/initramfs.rs:53-72 | The magic and all thirteen header fields, those a reader skips included: inode 1, one link, owned by root, no time, device or checksum |
| Cpio.EntryRoundTrip | src/initramfs.rs:53-80 | A newc reader gives the entry back and finds the next one, whatever follows |
| Cpio.ArchiveRoundTrip | src/initramfs.rs:31-42 | A newc reader gives back every list of entries, up to the trailer |
| Cpio.WriteAgent | src/initramfs.rs:31-42 | The archive is a multiple of 512 and unpacks to the agent under its three names |
| ShellQuote.LexQuote | src/cli.rs:2033-2038 | The shell reads a quoted value as one word, whatever it holds |
| ShellQuote.QuotingRoundTrip | src/cli.rs:2024-2038 | The shell reads back exactly the words that were quoted and joined |
| ShellQuote.MetaIsNotAWord | src/cli.rs:2024-2038 | The reader takes no operator, expansion or pattern outside quotes for a word, so a quoting that lets one out does not read back |
| ShellQuote.NameIsAWord | src/paths.rs:13-28 | A valid instance name is one plain shell word as it stands |
| Detach.Instances.RollBack | src/cli.rs:1507-1518 | Puts every moved directory back, or stops at a rename that failed; each transaction so given up is gone, or empty where its removal failed, and no other changed |
| Detach.Instances.DetachAll | src/cli.rs:1502-1527 | All directories move into their transactions, returned in order, exactly when every rename can be done; otherwise all are back unless a rollback rename failed, and the transactions of the plans tried are gone, or empty where their removal failed, and no other changed |
| Detach.NothingIsLost | src/cli.rs:1502-1527 | Whatever the outcome, each directory's content is in place or in its transaction |

## Left out

- Migration from the layout before the store (`src/store/legacy.rs`), descriptors, host-share reporting, launch metadata: would only add easy members.
- Version fields of records and manifests, owner process identities, sizes above 64 bits: not part of what the properties speak about.
- Ids are numbers handed out in order, unique across stores; clocks and random names are parameters. The newest final snapshot is the one with the greatest id.
- The order of listed checkpoints and the report of what was collected (`Collected`).
- The directories `generations`, `runs` and `checkpoints` are there from the start. The source does not sync their creation, so on a file system that orders nothing by itself a power loss may take the very first checkpoint along with its directory; on a journaled one it makes no difference.
- A host-share tree is copied and synced as one unit.
- An error while a staging directory is being created is modelled as a kill.
- Removal of a temporary file after a failed commit: it is never linked, so nothing depends on it.
- The instance lock is exclusive ownership of the `Store` object; brokers, sockets, sessions and the guest are events of `Owners.Play`, and a capture is an atomic copy of the run's disk.
- Exports.Export: on a file system that orders nothing by itself, which allows every crash a journaled one does.
- Durability.SurvivesIff: without a journal, only while the open run's final snapshot, if one was ever published, is in place and synced; a collected one may come back there without its files.
- Owners: a guest write replaces the whole image in one write to the log, so a power loss shows a run's disk as it was at one moment; images torn inside are not modelled.
- Push.PushInstance: other clients' streams arrive whole, before and after the client's own; PushRace.PushAmongOthers has them interleaved call by call.
- PinGc and ForkStaging see kills between system calls; power loss is the subject of the store model and of Exports.PublishFork.
- In ForkStaging a directory's remaining files go with its last removal step, and destinations are only ever made by forks.
- Sparse.Image.PunchHole: punching is exact to the byte; the rounding of partial file-system blocks is not modelled.
- Sparse.CopyWithoutDenseLargeImage: counts allocated bytes exactly; FICLONE cloning, timestamps and permissions are not modelled.
- SHA-256 is a parameter without any assumption; what needs collision freedom asks for it on the blocks involved. JSON, zstd, HTTP, sessions, and the installation of a rebuilt tree as an instance are not modelled.
- Limits of the host on the length of a name or path, and file systems that identify names by case or composition.
- CAS blocks are not synced by the source, so no claim is made about power loss there.
- ShellQuote reads quoting and word splitting only; unquoted characters with any other meaning make the reader give up.
