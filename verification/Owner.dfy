/**
  The VM owner that drives the store (src/runner/session.rs, src/runner.rs), the
  commands run on a stopped instance, kills between and inside them, and power
  losses. The guest's writes are numbered in order. `acked` are those of commands a
  client was told about. Of these, `dropped` are those the user gave up by an explicit
  choice: a discard, a restore, an edit, or a start from another snapshot; `lost` are
  those a power loss took. The rest are on the account, and the account is kept over
  every boot.
 */
module Owners {
  import opened Layout
  import opened Journal
  import opened StoreModel
  import opened StoreWrites
  import opened Disks
  import opened RunDisks
  import opened Garbage
  import opened Instances
  import opened Stores
  import opened CheckpointOps
  import opened CrashTheorems
  import opened Accounts
  import opened OnDisk
  import opened Durability

  // --------------------------------------------------------------- the machine

  class Machine {
    const store: Store
    var session: Option<Session>
    var nextWrite: nat
    ghost var acked: set<nat>
    ghost var dropped: set<nat>
    ghost var lost: set<nat>

    /** The account: acknowledged, not given up, not lost. */
    ghost function Live(): set<nat> reads this { acked - dropped - lost }

    /** No acknowledged write is silently lost. */
    ghost predicate Inv()
      reads this, store
    {
      && Valid(store.disk) && store.disk.journaled
      && SafeFor(State(store.disk), Live())
      && Booked(store.disk, Live(), nextWrite) && Flushed(store.disk, Live())
      && SessionOk(store.disk, session)
      && AllBelow(acked, nextWrite) && dropped <= acked && lost <= acked
    }

    constructor (store: Store, first: nat)
      requires Valid(store.disk) && store.disk.journaled && Booked(store.disk, {}, first)
      ensures this.store == store && Inv() && session.None? && acked == {} && dropped == {} && lost == {}
    {
      this.store := store;
      session := None;
      nextWrite := first;
      acked, dropped, lost := {}, {}, {};
      new;
      assert Live() == {};
      NothingToFlush(store.disk);
    }

    /** The first image becomes the saved state of a new instance (src/store.rs:517-527);
        where there is an instance this is refused. */
    method Create(image: Files, pinned: set<GenerationId>) returns (r: Outcome<GenerationId>)
      requires Inv() && session.None?
      modifies this`nextWrite, store
      ensures Inv() && Later(old(store.disk), store.disk)
      ensures r.Ok? ==> State(old(store.disk)).None? && State(store.disk).Some?
                        && State(store.disk).value.current == Some(Payload(image)) && State(store.disk).value.open.None?
      ensures State(old(store.disk)).Some? ==> State(store.disk) == State(old(store.disk))
      ensures r.Err? ==> store.Fallible() || State(old(store.disk)).Some? || ROOTFS !in ManifestFiles(image)
    {
      hide Valid, CrashSafe, SafeFor, Booked, Flushed, State, Later, Grows, RecordOf, SameRefs, OtherRefsSame, Only,
           FewerFinals, SameFinals, Images, RunRecords, RecordDurable, Unsynced, CommitCount, OnlyAdds, NoNewFinals,
           Staged, ChildrenAre, Payload, ManifestFiles, Checkpoints, Writes;
      ghost var d0, live, next := store.disk, Live(), nextWrite;
      nextWrite := AboveFiles(image, nextWrite);
      BookNext(d0, live, next, nextWrite);
      var staged := store.StageFiles(image);
      ghost var d1 := store.disk;
      StagedState(d0, d1, d0.ledger.nextGen);
      StepKept(d0, d1, live, nextWrite);
      if staged.Err? {
        return Err(staged.error);
      }
      r := store.Initialize(staged.value, image, pinned);
      Then(d0, d1, store.disk);
      CopyWrites(image);
      PublishedBelow(d1.ledger, store.disk.ledger, image, nextWrite);
      PhaseOfState(d1);
      PhaseOfState(store.disk);
      StepKept(d1, store.disk, live, nextWrite);
      if State(d1).None? {
        NoneLive(State(store.disk));
      }
    }

    /** Recovers, and imports an explicit snapshot if one is given
        (src/runner/session.rs:63-72). */
    method TakeOver(imported: Option<Files>, pinned: set<GenerationId>) returns (r: Outcome<Option<GenerationId>>)
      requires Inv() && session.None?
      modifies store, this`nextWrite
      ensures Inv() && Later(old(store.disk), store.disk)
      ensures r.Ok? ==> RecordOf(store.disk.view).Some? && RecordOf(store.disk.view).value.phase == Stopped
      ensures r.Ok? ==> (imported.None? <==> r.value.None?)
      ensures r.Ok? && imported.None? ==> exists how :: Recovered(old(store.disk), store.disk, how)
      ensures r.Ok? && imported.Some? ==> IsInPlace(store.disk.view, r.value.value) && r.value.value in store.disk.ledger.published
      ensures r.Ok? && imported.Some? ==> Imported(store.disk.ledger.published[r.value.value], imported.value)
      ensures r.Err? ==>
                || store.Fallible() || Stuck(old(store.disk))
                || (imported.Some? && ROOTFS !in ManifestFiles(Payload(imported.value)))
    {
      hide Valid, CrashSafe, SafeFor, Booked, Flushed, State, Recovered, FewerFinals, SameFinals, Later, Grows,
           RecordOf, NoGarbage, SameRefs, OtherRefsSame, Only, NewGenerationOf, Images, RunRecords, RecordDurable,
           Unsynced, CommitCount, Writes, NoNewFinals, PublishedPayload, Imported, RecordedAs,
           ManifestFiles, Payload, IsInPlace;
      ghost var d0, live := store.disk, Live();
      var recovered := store.Recover(pinned);
      ghost var d1 := store.disk;
      RecoverEitherWay(d0, d1, live, nextWrite, recovered);
      RecoverOnlyStops(d0, d1, recovered);
      BookKept(d0, d1, live, nextWrite);
      FlushKept(d0, d1, live, nextWrite);
      if recovered.Err? {
        return Err(recovered.error);
      }
      RecoveredStops(d0, d1, recovered.value);
      if imported.None? {
        return Ok(None);
      }
      nextWrite := AboveFiles(Payload(imported.value), nextWrite);
      BookNext(d1, live, old(nextWrite), nextWrite);
      var g := store.ImportDir(imported.value, RecordOf(store.disk.view).value.latest, Import);
      ghost var files := Payload(imported.value);
      CopyWrites(files);
      CapturedBelow(d1, store.disk, RecordOf(d1.view).value.latest, Import, files, nextWrite);
      NewGenerationKeeps(d1, store.disk, RecordOf(d1.view).value.latest, Import, files);
      StepKept(d1, store.disk, live, nextWrite);
      Then(d0, d1, store.disk);
      if g.Err? {
        return Err(g.error);
      }
      r := Ok(Some(g.value));
    }

    /** Recovery, an import if one is asked for, and a run opened on the result
        (src/runner/session.rs:35-95). A run that cannot boot is closed again
        (src/runner.rs:511-531). */
    method Begin(imported: Option<Files>, pinned: set<GenerationId>) returns (r: Outcome<()>)
      requires Inv() && session.None?
      modifies this, store
      ensures Inv() && Later(old(store.disk), store.disk)
      ensures acked == old(acked) && lost == old(lost) && old(dropped) <= dropped && (imported.None? ==> dropped == old(dropped))
      ensures r.Ok? <==> session.Some?
      ensures r.Ok? ==> !session.value.dirty && !session.value.sealed && RunsFrom(store.disk, session.value)
      ensures r.Err? ==>
                || store.Fallible() || Stuck(old(store.disk))
                || if imported.Some? then ROOTFS !in ManifestFiles(Payload(imported.value))
                   else RecordOf(old(store.disk).view).value.latest.None?
    {
      hide Valid, CrashSafe, SafeFor, Booked, Flushed, State, SameFinals, FewerFinals, SameRefs, OtherRefsSame, Only,
           Later, Grows, RecordOf, SessionOk, RunsFrom, Recovered, Imported, Payload, ManifestFiles;
      var from := TakeOver(imported, pinned);
      ghost var d1 := store.disk;
      if from.Err? {
        return Err(from.error);
      }
      if imported.None? {
        ghost var how :| Recovered(old(store.disk), d1, how);
        RecoveredHasLatest(old(store.disk), d1, how);
      }
      r := StartRun(from.value, pinned);
      Then(old(store.disk), d1, store.disk);
    }

    /** Opens a run on a stopped instance, from `from` if given. */
    method StartRun(from: Option<GenerationId>, pinned: set<GenerationId>) returns (r: Outcome<()>)
      requires Inv() && session.None?
      requires RecordOf(store.disk.view).Some? && RecordOf(store.disk.view).value.phase == Stopped
      modifies this, store
      ensures Inv() && Later(old(store.disk), store.disk)
      ensures acked == old(acked) && lost == old(lost) && old(dropped) <= dropped && (from.None? ==> dropped == old(dropped))
      ensures r.Ok? <==> session.Some?
      ensures r.Ok? ==> !session.value.dirty && !session.value.sealed && RunsFrom(store.disk, session.value)
      ensures r.Err? ==>
                || store.Fallible()
                || if from.Some? then !IsInPlace(old(store.disk).view, from.value) else RecordOf(old(store.disk).view).value.latest.None?
    {
      hide Valid, CrashSafe, SafeFor, Booked, Flushed, State, FewerFinals, SameFinals, Later, Grows, Began, RecordOf,
           FinalOf, SameRefs, OtherRefsSame, Only, NoGarbage, Closed, Images, RunRecords, RecordDurable, Unsynced,
           CommitCount, Writes, FilesImage, ImageOn, PublishedPayload, NoNewFinals, BaseFiles, BootableRun, RunsFrom,
           NamedOnceSynced, RunsOn, IsInPlace;
      ghost var d1, live := store.disk, Live();
      var run := store.BeginRun(from);
      ghost var d2 := store.disk;
      BeginEitherWay(d1, d2, live, from, nextWrite, run);
      if RecordOf(d2.view) != RecordOf(d1.view) {
        dropped := dropped + (live - Writes(BaseFiles(d1, from)));
        assert Live() == live * Writes(BaseFiles(d1, from));
        BookFewer(d2, live, Live(), nextWrite);
      }
      FlushFewer(d1, live, Live());
      FlushStarted(d1, d2, Live(), from);
      if run.Err? {
        return Err(run.error);
      }
      BeganIsRunning(d1, d2, from, run.value);
      BaseBoots(d1, d2, from, run.value);
      if BootableRun(store.disk, run.value) {
        FreshRunHasNoFinals(d1);
        StartedOk(d1, d2, from, run.value);
        RunsFromBase(d1, d2, from, run.value);
        session := Some(Session(run.value, if from.Some? then from else RecordOf(store.disk.view).value.latest, false, false));
        return Ok(());
      }
      var abandoned := store.AbandonRun(run.value, pinned);
      Then(d1, d2, store.disk);
      OpSafe(d2, store.disk, Live());
      ThenStopped(d2, store.disk);
      StepKept(d2, store.disk, Live(), nextWrite);
      r := Err(NoRootfs);
    }

    /** A command is dispatched: the store is marked dirty before the first one
        reaches the guest (src/runner.rs:2186-2192, src/runner/session.rs:107-119); its
        write, with the next number, is then acknowledged. After the shutdown barrier
        commands are refused. `before` is the disk just before the guest's write. */
    method Dispatch() returns (served: bool, w: nat, ghost before: Disk)
      requires Inv() && session.Some?
      modifies this, store
      ensures Inv() && Later(old(store.disk), store.disk) && session.Some? && session.value.run == old(session).value.run
      ensures dropped == old(dropped) && lost == old(lost) && acked == if served then old(acked) + {w} else old(acked)
      ensures w !in old(acked) && Live() == if served then old(Live()) + {w} else old(Live())
      ensures !served ==> old(session).value.sealed || store.Fallible()
      ensures served ==> HasDisk(State(store.disk)) && State(store.disk).value.open.value.dirty
                         && w in Writes(State(store.disk).value.open.value.files)
      ensures served ==> CrashSafe(before) && !Kept(before, w) && WroteLast(before, store.disk, session.value.run, w)
      ensures served ==> !session.value.sealed
      ensures old(session).value.sealed ==> !served
    {
      hide Valid, CrashSafe, SafeFor, Booked, Flushed, State, FewerFinals, SameFinals, Later, Grows, RecordOf, FinalOf,
           SameRefs, OtherRefsSame, Only, Dirtied, Wrote, Images, RunRecords, RecordDurable, Unsynced, CommitCount,
           Writes, ImageOn, Kept, NoNewFinals;
      ghost var d0, live := store.disk, Live();
      var run := session.value.run;
      w, before := nextWrite, d0;
      Unchanged(d0);
      if session.value.sealed {
        return false, w, before;
      }
      if !session.value.dirty {
        var marked := store.MarkDirty(run);
        OpSafe(d0, store.disk, live);
        SessionAfter(d0, store.disk, session.value);
        DirtiedRecord(d0, store.disk, run);
        BookKept(d0, store.disk, live, nextWrite);
        FlushDirtied(d0, store.disk, live, run);
        if marked.Err? {
          return false, w, before;
        }
        session := Some(session.value.(dirty := true));
      }
      before := store.disk;
      DiskIsThere(before, run);
      NewIsUnkept(before, live, w);
      store.GuestWrites(run, w);
      Then(d0, before, store.disk);
      WroteSafe(before, store.disk, live, run, w, true);
      StopsOnce(before, store.disk);
      FlushMore(before, live, w);
      FlushKept(before, store.disk, live + {w}, w);
      BookWrote(before, store.disk, live, w, run, true);
      SessionAfter(before, store.disk, session.value);
      WroteOnDisk(before, store.disk, run, w);
      acked := acked + {w};
      nextWrite := w + 1;
      assert Live() == live + {w};
      served := true;
    }

    /** The guest writes on its own account; nobody is told. */
    method Background()
      requires Inv() && session.Some?
      modifies this`nextWrite, store
      ensures Inv() && Later(old(store.disk), store.disk)
      ensures Wrote(old(store.disk), store.disk, session.value.run, old(nextWrite))
    {
      hide Valid, CrashSafe, SafeFor, Booked, Flushed, State, FewerFinals, SameFinals, Later, Grows, RecordOf, FinalOf,
           SameRefs, Wrote, Images, RunRecords, Unsynced, CommitCount, Writes, ImageOn;
      ghost var d0 := store.disk;
      DiskIsThere(d0, session.value.run);
      store.GuestWrites(session.value.run, nextWrite);
      WroteSafe(d0, store.disk, Live(), session.value.run, nextWrite, false);
      BookWrote(d0, store.disk, Live(), nextWrite, session.value.run, false);
      StopsOnce(d0, store.disk);
      FlushKept(d0, store.disk, Live(), nextWrite);
      SessionAfter(d0, store.disk, session.value);
      nextWrite := nextWrite + 1;
    }

    /** The guest flushes its disk, or the device is paused for a capture; either syncs the
        file on the host (third_party/libkrun/src/devices/src/virtio/pmem/device.rs:81-102,
        254-262): what is on it is then synced. */
    method Flush() returns (r: Outcome<()>)
      requires Inv() && session.Some?
      modifies store
      ensures Inv() && Later(old(store.disk), store.disk)
      ensures store.disk.view == old(store.disk).view && store.disk.ledger == old(store.disk).ledger
      ensures CommitCount(store.disk.log) == CommitCount(old(store.disk).log)
      ensures RecordDurable(old(store.disk)) ==> RecordDurable(store.disk)
      ensures r.Ok? ==> SyncedImage(store.disk.base, store.disk.log, session.value.run) == ImageOn(store.disk.view, session.value.run)
      ensures r.Ok? ==> AllOnSynced(store.disk, Live())
      ensures r.Ok? && RecordDurable(old(store.disk)) ==> forall w :: w in Live() ==> SurvivesEvery(store.disk, w)
      ensures r.Err? ==> r == Err(Io) && store.Fallible()
    {
      hide RecordDurable, SurvivesEvery, RecordOf, Valid, CrashSafe, SafeFor, Booked, Flushed, Later, Grows, Images,
           RunRecords, Unsynced, CommitCount, After, Pending, ImageOn, SyncedImage, State, HasDisk, AllOnSynced, FinalOf;
      ghost var d0 := store.disk;
      Unchanged(d0);
      SyncedIsValid(d0, RunFileObj(session.value.run, ROOTFS));
      SyncedNow(d0, session.value.run);
      r := store.SyncOne(RunFileObj(session.value.run, ROOTFS));
      SameView(d0, store.disk);
      StepKept(d0, store.disk, Live(), nextWrite);
      if RecordDurable(d0) { DurableKept(d0, store.disk); }
      if r.Ok? {
        FlushedAll(store.disk, Live(), session.value.run);
        if RecordDurable(d0) {
          FlushedIsSynced(store.disk, session.value.run);
          AccountSurvives(store.disk, Live(), nextWrite);
        }
      }
    }

    /** A capture of the running VM as a new generation (src/runner/capture.rs:49-64,
        src/runner.rs:3443-3460): its disk is flushed and then copied, while it is
        paused. */
    method Capture(memory: Files, origin: Origin) returns (r: Outcome<GenerationId>)
      requires Inv() && session.Some? && !origin.Snapshot?
      modifies store
      ensures Inv() && Later(old(store.disk), store.disk)
      ensures State(store.disk) == State(old(store.disk)) && RecordOf(store.disk.view) == RecordOf(old(store.disk).view)
      ensures r.Ok? ==>
                && IsInPlace(store.disk.view, r.value) && r.value in store.disk.ledger.published
                && Writes(PublishedPayload(store.disk.ledger, r.value)) == Writes(State(old(store.disk)).value.open.value.files)
                && Writes(PublishedPayload(store.disk.ledger, r.value)) == Held(store.disk.view, session.value.run)
                && IsCapture(PublishedPayload(store.disk.ledger, r.value), memory, State(old(store.disk)).value.open.value.files)
                && RecordedAs(store.disk.ledger, r.value, session.value.base, origin)
      ensures r.Ok? ==> AllOnSynced(store.disk, Live())
      ensures r.Err? ==> store.Fallible()
    {
      hide Valid, CrashSafe, SafeFor, Booked, Flushed, State, FewerFinals, SameFinals, Later, Grows, RecordOf, FinalOf,
           SameRefs, OtherRefsSame, Only, NewGenerationOf, Payload, Captured, Writes, ManifestFiles, Images, RunRecords,
           RecordDurable, Unsynced, CommitCount, NoNewFinals, PublishedPayload, Held, AllOnSynced, SurvivesEvery,
           SyncedImage, ImageOn, Pending, OpenWrites, IsCapture, RecordedAs;
      var flushed := Flush();
      ghost var d0, live := store.disk, Live();
      SameView(old(store.disk), d0);
      if flushed.Err? {
        return Err(Io);
      }
      var run := session.value.run;
      var files := Captured(store.disk, run, memory);
      CaptureHolds(d0, run, memory);
      HeldIsBelow(d0, live, nextWrite, run);
      r := store.NewGeneration(files, session.value.base, origin);
      ghost var d1 := store.disk;
      Then(old(store.disk), d0, d1);
      CaptureKeeps(d0, d1, session, session.value.base, origin, files);
      CapturedBelow(d0, d1, session.value.base, origin, files, nextWrite);
      StepKept(d0, d1, live, nextWrite);
      StaysOnSynced(d0, d1, live);
      HeldSame(d0.view, d1.view);
    }

    /** The guest's request for a snapshot (src/runner/capture.rs:154-168): a capture
        becomes the saved state, and the run goes on, as dirty as it was. */
    method SnapshotExit(memory: Files) returns (r: Outcome<()>)
      requires Inv() && session.Some?
      modifies store
      ensures Inv() && Later(old(store.disk), store.disk)
      ensures r.Ok? ==>
                && State(store.disk).Some? && State(store.disk).value.current.Some?
                && State(store.disk).value.open == State(old(store.disk)).value.open
                && Writes(State(store.disk).value.current.value) == Writes(State(old(store.disk)).value.open.value.files)
                && IsCapture(State(store.disk).value.current.value, memory, State(old(store.disk)).value.open.value.files)
      ensures r.Ok? ==>
                && RecordOf(store.disk.view).Some? && RecordOf(store.disk.view).value.latest.Some?
                && RecordedAs(store.disk.ledger, RecordOf(store.disk.view).value.latest.value, session.value.base,
                              Origin.SnapshotExit(session.value.run))
      ensures r.Err? ==> store.Fallible()
    {
      hide Valid, CrashSafe, SafeFor, Booked, Flushed, State, FewerFinals, SameFinals, Later, Grows, RecordOf, FinalOf,
           SameRefs, OtherRefsSame, Only, Advanced, Writes, Images, RunRecords, RecordDurable, Unsynced, CommitCount,
           NoNewFinals, PublishedPayload, Held, AllOnSynced, IsCapture, RecordedAs;
      var g := Capture(memory, Origin.SnapshotExit(session.value.run));
      if g.Err? {
        return Err(g.error);
      }
      ghost var d1, live := store.disk, Live();
      AllOnRun(State(d1), live);
      r := store.AdvanceLatest(session.value.run, g.value);
      Then(old(store.disk), d1, store.disk);
      OpSafe(d1, store.disk, live);
      SessionAfter(d1, store.disk, session.value);
      AdvancedMeans(d1, store.disk, session.value.run, g.value);
      RecordedStays(d1.ledger, store.disk.ledger, g.value, session.value.base, Origin.SnapshotExit(session.value.run));
      BookAdvanced(d1, store.disk, live, nextWrite, session.value.run, g.value);
      FlushAdvanced(d1, store.disk, live, session.value.run, g.value);
    }

    /** A checkpoint of the running VM (src/runner/capture.rs:132-142). */
    method LiveCheckpoint(id: CheckpointId, name: Option<string>, now: nat, memory: Files) returns (r: Outcome<()>)
      requires Inv() && session.Some?
      modifies store
      ensures Inv() && Later(old(store.disk), store.disk)
      ensures r.Ok? ==>
                && State(store.disk).Some? && id in State(store.disk).value.checkpoints
                && State(store.disk).value.checkpoints[id].name == name
                && Writes(State(store.disk).value.checkpoints[id].files) == Writes(State(old(store.disk)).value.open.value.files)
                && IsCapture(State(store.disk).value.checkpoints[id].files, memory, State(old(store.disk)).value.open.value.files)
      ensures r.Err? ==> store.Fallible()
    {
      hide Valid, CrashSafe, SafeFor, Booked, Flushed, State, FewerFinals, SameFinals, Later, Grows, RecordOf, FinalOf,
           SameRefs, OtherRefsSame, Only, Checkpointed, Writes, RefOf, Images, RunRecords, RecordDurable, RefDurable,
           Unsynced, CommitCount, NoNewFinals, PublishedPayload, Held, AllOnSynced, IsCapture, RecordedAs;
      var g := Capture(memory, Origin.Checkpoint(session.value.run));
      if g.Err? {
        return Err(g.error);
      }
      ghost var d1, live := store.disk, Live();
      var ref := CheckpointRef(id, name, g.value, now);
      r := store.AddCheckpoint(ref);
      Then(old(store.disk), d1, store.disk);
      OnlyKeeps(InRefs, d1.view, store.disk.view);
      OpSafe(d1, store.disk, live);
      SessionAfter(d1, store.disk, session.value);
      CheckpointedHolds(d1, store.disk, ref);
      StepKept(d1, store.disk, live, nextWrite);
    }

    /** The shutdown barrier, the flush of the run's disk and its final capture, published
        but not yet committed (src/runner.rs:2309-2347). Once it has returned, and where the
        record is synced, the account hangs on nothing that a power loss could take. */
    method PublishFinal(memory: Files) returns (r: Outcome<GenerationId>)
      requires Inv() && session.Some? && !session.value.sealed
      modifies this`session, store
      ensures Inv() && Later(old(store.disk), store.disk)
      ensures session == Some(old(session).value.(sealed := true))
      ensures State(store.disk) == State(old(store.disk)) && RecordOf(store.disk.view) == RecordOf(old(store.disk).view)
      ensures CommitCount(store.disk.log) == CommitCount(old(store.disk).log)
      ensures r.Ok? ==>
                && r.value == old(store.disk).ledger.nextGen && IsFinal(store.disk, session.value.run, r.value)
                && Writes(PublishedPayload(store.disk.ledger, r.value)) == OpenWrites(old(store.disk)) == OpenWrites(store.disk)
                && IsCapture(PublishedPayload(store.disk.ledger, r.value), memory, State(old(store.disk)).value.open.value.files)
                && RecordedAs(store.disk.ledger, r.value, session.value.base, Origin.Snapshot(session.value.run))
      ensures r.Ok? && RecordDurable(old(store.disk)) ==>
                RecordDurable(store.disk) && forall w :: w in Live() ==> SurvivesEvery(store.disk, w)
      ensures r.Err? ==> store.Fallible()
    {
      hide Valid, CrashSafe, SafeFor, Booked, Flushed, State, FewerFinals, SameFinals, Later, Grows, RecordOf, FinalOf,
           SameRefs, OtherRefsSame, Only, NewGenerationOf, Payload, Captured, Writes, ManifestFiles, Images, RunRecords,
           RecordDurable, Unsynced, CommitCount, NoNewFinals, PublishedPayload, Held, SurvivesEvery, IsFinal,
           OpenWrites, Pending, ImageOn, HasDisk, AllOnSynced, SyncedImage, IsCapture, RecordedAs;
      var run := session.value.run;
      var flushed := Flush();
      ghost var d0, live := store.disk, Live();
      SameView(old(store.disk), d0);
      session := Some(session.value.(sealed := true));
      SealedKeeps(d0, d0, session.value);
      if flushed.Err? {
        return Err(Io);
      }
      var files := Captured(store.disk, run, memory);
      CaptureHolds(d0, run, memory);
      HeldIsBelow(d0, live, nextWrite, run);
      AllOnRun(State(d0), live);
      var parent := session.value.base;
      RunIsStarted(d0, run);
      r := store.NewGeneration(files, parent, Origin.Snapshot(run));
      ghost var d1 := store.disk;
      Then(old(store.disk), d0, d1);
      NewGenerationKeeps(d0, d1, parent, Origin.Snapshot(run), files);
      BookFinal(d0, d1, live, nextWrite, parent, run, files);
      FlushCaptured(d0, d1, live);
      SealedKeeps(d0, d1, session.value);
      if r.Ok? {
        CapturedFinal(d0, d1, parent, run, files);
        if RecordDurable(d0) {
          FinalIsSynced(d1, run, r.value);
          AccountSurvives(d1, live, nextWrite);
        }
      }
    }

    /** The final snapshot becomes the saved state (src/runner/session.rs:151-158). */
    method CommitFinal(g: GenerationId, pinned: set<GenerationId>) returns (r: Outcome<()>)
      requires Inv() && session.Some? && session.value.sealed
      requires IsFinal(store.disk, session.value.run, g)
      requires Writes(PublishedPayload(store.disk.ledger, g)) == OpenWrites(store.disk)
      modifies this`session, store
      ensures Inv() && Later(old(store.disk), store.disk)
      ensures r.Ok? ==>
                && session.None? && State(store.disk).Some? && State(store.disk).value.open.None? && RecordDurable(store.disk)
                && SavedWrites(store.disk) == OpenWrites(old(store.disk))
                && State(store.disk).value.current == Some(PublishedPayload(old(store.disk).ledger, g))
                && forall w :: w in Live() ==> SurvivesEvery(store.disk, w)
      ensures r.Err? ==> session.None? || session == old(session)
      ensures r.Err? ==> store.Fallible()
    {
      hide Valid, CrashSafe, SafeFor, Booked, Flushed, State, FewerFinals, SameFinals, Later, Grows, RecordOf, FinalOf,
           SameRefs, OtherRefsSame, Only, CommitOutcome, Writes, NoGarbage, Images, RunRecords, RecordDurable, Unsynced,
           CommitCount, NoNewFinals, PublishedPayload, SurvivesEvery, OpenWrites, SavedWrites, HasDisk;
      ghost var d0, live := store.disk, Live();
      AllOnRun(State(d0), live);
      r := store.CommitLatest(g, pinned);
      CommittedFinal(d0, store.disk, live, session.value.run, g, r);
      StepKept(d0, store.disk, live, nextWrite);
      if RecordOf(store.disk.view) == Some(Record(Some(g), Stopped)) {
        session := None;
        if r.Ok? {
          StoppedIsSynced(store.disk);
          AccountSurvives(store.disk, live, nextWrite);
        }
      } else {
        SealedKeeps(d0, store.disk, session.value);
      }
    }

    /** The whole stop (src/runner.rs:2309-2350). Once it has returned, the record of the
        new saved state is synced. */
    method Finish(memory: Files, pinned: set<GenerationId>) returns (r: Outcome<()>)
      requires Inv() && session.Some? && !session.value.sealed
      modifies this`session, store
      ensures Inv() && Later(old(store.disk), store.disk)
      ensures r.Ok? ==>
                && session.None? && State(store.disk).Some? && State(store.disk).value.open.None? && RecordDurable(store.disk)
                && SavedWrites(store.disk) == OpenWrites(old(store.disk)) && State(store.disk).value.current.Some?
                && IsCapture(State(store.disk).value.current.value, memory, State(old(store.disk)).value.open.value.files)
                && forall w :: w in Live() ==> SurvivesEvery(store.disk, w)
      ensures r.Err? ==> session.None? || session.value.sealed
      ensures r.Err? ==> store.Fallible()
    {
      hide Valid, CrashSafe, SafeFor, Booked, Flushed, State, Later, Grows, RecordOf, Writes, RecordDurable,
           PublishedPayload, SurvivesEvery, IsFinal, OpenWrites, SavedWrites, ImageOn, SessionOk, IsCapture, RecordedAs;
      var g := PublishFinal(memory);
      ghost var d1 := store.disk;
      if g.Err? {
        return Err(g.error);
      }
      r := CommitFinal(g.value, pinned);
      Then(old(store.disk), d1, store.disk);
    }

    /** The run is over without a final snapshot (src/runner/session.rs:192-219): closed
        if it never served, its disk saved if it served and the guest had flushed, and
        otherwise left as it is for `recover`. */
    method Abandon(quiesced: bool, pinned: set<GenerationId>)
      requires Inv() && session.Some?
      modifies this`session, store
      ensures Inv() && Later(old(store.disk), store.disk) && session.None?
      ensures old(session).value.dirty && !quiesced ==> store.disk == old(store.disk)
      ensures old(session).value.dirty && quiesced && !store.Fallible() ==> Salvaged(old(store.disk), store.disk)
      ensures !old(session).value.dirty && !store.Fallible() ==>
                Closed(old(store.disk), store.disk) || (RecordOf(store.disk.view).Some? && RecordOf(store.disk.view).value.phase.Dirty?)
    {
      hide Valid, CrashSafe, SafeFor, Booked, Flushed, State, FewerFinals, SameFinals, Later, Grows, RecordOf, SameRefs,
           NoGarbage, Closed, Salvaged, RunFiles, OtherRefsSame, Only, Images, RunRecords, RecordDurable, Unsynced,
           CommitCount, OnlyAdds, NoNewFinals, Abs, DiskOnly;
      SessionHasDisk(store.disk, session.value);
      ghost var d0, live := store.disk, Live();
      Unchanged(d0);
      if session.value.dirty && quiesced {
        var r := store.Salvage(pinned);
        CopiesBelow(d0, store.disk, live, nextWrite);
        OpSafe(d0, store.disk, live);
        ThenStopped(d0, store.disk);
        StepKept(d0, store.disk, live, nextWrite);
      } else if !session.value.dirty {
        var r := store.AbandonRun(session.value.run, pinned);
        OpSafe(d0, store.disk, live);
        ThenStopped(d0, store.disk);
        StepKept(d0, store.disk, live, nextWrite);
      }
      session := None;
    }

    // ------------------------------------------------ commands on a stopped instance

    /** `recover --keep`: the crashed disk has the whole account, even where recovery would
        roll forward, so nothing is given up. */
    method KeepDisk(pinned: set<GenerationId>) returns (r: Outcome<GenerationId>)
      requires Inv() && session.None?
      modifies store
      ensures r.Ok? ==> Salvaged(old(store.disk), store.disk) && Live() <= SavedWrites(store.disk)
      ensures Inv() && Later(old(store.disk), store.disk)
      ensures r.Err? ==>
                || (r == Err(Io) && store.Fallible())
                || RecordOf(old(store.disk).view).None? || !RecordOf(old(store.disk).view).value.phase.Dirty?
                || !HasRootfs(RunFiles(old(store.disk), RecordOf(old(store.disk).view).value.phase.run))
    {
      hide HasRootfs, RunFiles, SavedWrites, Valid, CrashSafe, SafeFor, Booked, Flushed, State, FewerFinals, SameFinals,
           Later, Grows, RecordOf, SameRefs, NoGarbage, Salvaged, OtherRefsSame, Only, Images, RunRecords,
           RecordDurable, Unsynced, CommitCount, OnlyAdds, NoNewFinals, Abs, DiskOnly;
      ghost var d0, live := store.disk, Live();
      r := store.Salvage(pinned);
      CopiesBelow(d0, store.disk, live, nextWrite);
      OpSafe(d0, store.disk, live);
      ThenStopped(d0, store.disk);
      StepKept(d0, store.disk, live, nextWrite);
      if r.Ok? { AllSaved(State(store.disk), store.disk, live); }
    }

    /** `recover --discard`: the account is then what the saved state has; what only the
        crashed disk, or it and a final snapshot in place, had is given up. */
    method Discard(pinned: set<GenerationId>) returns (r: Outcome<RunId>)
      requires Inv() && session.None?
      modifies this`dropped, store
      ensures r.Ok? ==> Closed(old(store.disk), store.disk)
      ensures Inv() && Later(old(store.disk), store.disk) && old(dropped) <= dropped
      ensures Live() == KeptOf(store.disk, old(Live()))
      ensures r.Ok? ==> Live() == old(Live()) * SavedWrites(old(store.disk))
      ensures r.Err? ==> Live() == old(Live()) || (r == Err(Io) && Live() == old(Live()) * SavedWrites(old(store.disk)))
      ensures r.Err? ==>
                || (r == Err(Io) && store.Fallible())
                || RecordOf(old(store.disk).view).None? || !RecordOf(old(store.disk).view).value.phase.Dirty?
    {
      hide Kept, AllKept, KeptOf, SavedWrites, Valid, CrashSafe, SafeFor, Booked, Flushed, State, FewerFinals,
           SameFinals, Later, Grows, RecordOf, SameRefs, NoGarbage, Closed, Images, RunRecords, RecordDurable, Unsynced,
           CommitCount, NoNewFinals;
      ghost var d0, live := store.disk, Live();
      r := store.DiscardRun(pinned);
      ThenStopped(d0, store.disk);
      StepKept(d0, store.disk, live, nextWrite);
      SavedAfter(d0, store.disk);
      if Closed(d0, store.disk) && (r.Ok? || r == Err(Io)) {
        Choose();
      } else {
        Keep();
      }
    }

    /** Records what an explicit choice gave up: everything the saved state lacks. */
    ghost method Choose()
      requires State(store.disk).Some? && State(store.disk).value.open.None?
      requires Booked(store.disk, Live(), nextWrite) && Flushed(store.disk, Live())
      requires AllBelow(acked, nextWrite) && dropped <= acked && lost <= acked
      modifies this`dropped
      ensures old(dropped) <= dropped <= acked && SafeFor(State(store.disk), Live())
      ensures Booked(store.disk, Live(), nextWrite) && Flushed(store.disk, Live())
      ensures Live() == KeptOf(store.disk, old(Live())) == old(Live()) * SavedWrites(store.disk)
    {
      hide Kept, Booked, Flushed, State, Writes;
      ghost var live := Live();
      ghost var kept := KeptOf(store.disk, live);
      dropped := dropped + (live - kept);
      assert Live() == kept;
      KeptIsSaved(store.disk, live);
      SafeStopped(State(store.disk), kept);
      BookFewer(store.disk, live, kept, nextWrite);
      FlushFewer(store.disk, live, kept);
    }

    /** Nothing is given up. */
    lemma Keep()
      requires Inv()
      ensures Live() == KeptOf(store.disk, Live())
    {
      hide Kept, AllKept, Valid, CrashSafe, Booked, Flushed, SafeFor;
      SafeIsKept(store.disk, Live(), nextWrite);
      NothingGoes(store.disk, Live());
    }

    /** Checkpoints the stopped instance. */
    method Checkpoint(id: CheckpointId, name: Option<string>, now: nat) returns (r: Outcome<()>)
      requires Inv() && session.None?
      modifies store
      ensures Inv() && Later(old(store.disk), store.disk)
      ensures r.Ok? ==>
                && State(old(store.disk)).Some? && State(old(store.disk)).value.current.Some?
                && State(store.disk).Some? && id in State(store.disk).value.checkpoints
                && State(store.disk).value.checkpoints[id] == SavedState(name, State(old(store.disk)).value.current.value)
      ensures r.Err? ==>
                || (r == Err(Io) && store.Fallible())
                || RecordOf(old(store.disk).view).None? || RecordOf(old(store.disk).view).value.latest.None?
    {
      hide Valid, CrashSafe, SafeFor, Booked, Flushed, State, FewerFinals, SameFinals, SameRefs, Later, Grows, RecordOf,
           Only, OtherRefsSame, RefOf, Checkpointed, PublishedPayload, Images, RunRecords, RefDurable, Unsynced,
           CommitCount, NoNewFinals;
      ghost var d0 := store.disk;
      var record := RecordOf(store.disk.view);
      if record.None? || record.value.latest.None? {
        Unchanged(d0);
        return Err(NoSavedState);
      }
      var ref := CheckpointRef(id, name, record.value.latest.value, now);
      r := store.AddCheckpoint(ref);
      LatestIsInPlace(d0);
      OnlyKeeps(InRefs, d0.view, store.disk.view);
      PhaseOfState(d0);
      CurrentIs(d0, ref.generation);
      OpSafe(d0, store.disk, Live());
      CheckpointedHolds(d0, store.disk, ref);
      StepKept(d0, store.disk, Live(), nextWrite);
    }

    /** Deletes a checkpoint. A crashed instance is not recovered first, so a final snapshot
        that an interrupted run could roll forward to, which nothing names, may be collected;
        but whatever of the account it has, the run's disk has too. */
    method DeleteCheckpoint(c: CheckpointId, pinned: set<GenerationId>) returns (r: Outcome<()>)
      requires Inv() && session.None?
      modifies store
      ensures Inv() && Later(old(store.disk), store.disk)
      ensures r.Ok? ==> Forgotten(old(store.disk), store.disk, c)
      ensures RecordOf(store.disk.view) == RecordOf(old(store.disk).view)
      ensures r.Err? ==>
                || (r == Err(Io) && store.Fallible())
                || RecordOf(old(store.disk).view).None? || RefOf(old(store.disk).view, c).None?
    {
      hide Valid, CrashSafe, SafeFor, Booked, Flushed, State, FewerFinals, Later, Grows, RecordOf, OtherRefsSame, RefOf,
           Forgotten, NoGarbage, Images, RunRecords, Unsynced, CommitCount, NoNewFinals, Unnamed, IsInPlace;
      ghost var d0 := store.disk;
      r := store.RemoveCheckpoint(c, pinned);
      OpSafe(d0, store.disk, Live());
      StepKept(d0, store.disk, Live(), nextWrite);
    }

    /** Rolls back to a generation the user chose. */
    method RollBack(target: GenerationId, id: CheckpointId, now: nat, pinned: set<GenerationId>)
      returns (r: Outcome<Option<CheckpointRef>>)
      requires Inv() && session.None? && RefOf(store.disk.view, id).None?
      modifies this`dropped, store
      ensures r.Ok? ==> RecordOf(store.disk.view) == Some(Record(Some(target), Stopped))
      ensures Inv() && Later(old(store.disk), store.disk) && old(dropped) <= dropped
      ensures Live() == KeptOf(store.disk, old(Live()))
      ensures r.Err? ==>
                || (r == Err(Io) && store.Fallible()) || Stuck(old(store.disk)) || LatestAfterRecovery(old(store.disk), None)
                || !RefNames(old(store.disk).view, target)
    {
      hide RefNames, NamedSince, Kept, AllKept, KeptOf, Valid, CrashSafe, SafeFor, Booked, Flushed, State, FewerFinals, Later,
           Grows, RecordOf, RefOf, Unnamed, LatestAfterRecovery, Recovered, Restored, SameRefs, Images, RunRecords,
           NoNewFinals, SameFinals;
      ghost var d0, live := store.disk, Live();
      ghost var previous, since;
      r, previous, since := Restore(store, target, id, now, pinned);
      if r.Ok? && r.value.Some? { RestoredMeans(d0, store.disk, target, r.value.value, previous.value); }
      BookKept(d0, store.disk, live, nextWrite);
      FlushKept(d0, store.disk, live, nextWrite);
      if previous.Some? {
        ThenStopped(d0, store.disk);
        Choose();
      } else {
        if how :| Recovered(d0, store.disk, how) { RecoveredSafe(d0, store.disk, live, nextWrite, how); }
        Keep();
      }
    }

    /** Edits the saved state of a stopped instance, recovered first
        (src/cli.rs:1670-1680). `mid` is the instance once recovered. */
    method Edit(edits: seq<Edit>, editOk: bool, pinned: set<GenerationId>) returns (r: Outcome<GenerationId>, ghost mid: Disk)
      requires Inv() && session.None?
      modifies this`dropped, this`nextWrite, store
      ensures r.Ok? ==> (exists how :: Recovered(old(store.disk), mid, how)) && Derived(mid, store.disk, edits)
      ensures r.Err? ==>
                || store.Fallible() || Stuck(old(store.disk))
                || ((exists how :: Recovered(old(store.disk), mid, how)) && RecordOf(mid.view).Some?
                    && (!editOk || Abs(mid).current.None? || ROOTFS !in ManifestFiles(AfterEdits(Abs(mid).current.value, edits))))
      ensures Inv() && Later(old(store.disk), store.disk) && old(dropped) <= dropped
      ensures Live() == KeptOf(store.disk, old(Live()))
    {
      hide Kept, AllKept, KeptOf, Valid, CrashSafe, SafeFor, Booked, Flushed, State, FewerFinals, SameFinals, Later,
           Grows, RecordOf, SameRefs, OtherRefsSame, Only, NoGarbage, Derived, Recovered, Images, RunRecords,
           RecordDurable, Unsynced, CommitCount, OnlyAdds, NoNewFinals, AfterEdits, Abs;
      ghost var live := Live();
      var recovered := TakeOver(None, pinned);
      mid := store.disk;
      Keep();
      if recovered.Err? {
        return Err(recovered.error), mid;
      }
      ghost var next := nextWrite;
      nextWrite := AboveEdits(edits, nextWrite);
      NothingSaved(mid);
      r := store.Derive(edits, editOk, pinned);
      Then(old(store.disk), mid, store.disk);
      CopiesBelow(mid, store.disk, live, next);
      BookNext(mid, live, next, nextWrite);
      ThenStopped(mid, store.disk);
      StepKept(mid, store.disk, live, nextWrite);
      if Derived(mid, store.disk, edits) && (r.Ok? || r == Err(Io)) {
        Choose();
      } else {
        Keep();
      }
    }

    /** Drops the memory of the saved state, recovered first (src/cli.rs:2452-2460). */
    method ForgetMemory(pinned: set<GenerationId>) returns (r: Outcome<Option<GenerationId>>, ghost mid: Disk)
      requires Inv() && session.None?
      modifies this`nextWrite, store
      ensures Inv() && Later(old(store.disk), store.disk)
      ensures r.Ok? ==>
                && (exists how :: Recovered(old(store.disk), mid, how))
                && if HasMemory(mid) then MemoryDropped(mid, store.disk) else store.disk == mid
      ensures r.Err? ==> store.Fallible() || Stuck(old(store.disk))
    {
      hide Valid, CrashSafe, SafeFor, Booked, Flushed, State, FewerFinals, SameFinals, Later, Grows, RecordOf, SameRefs,
           OtherRefsSame, Only, NoGarbage, MemoryDropped, HasMemory, Recovered, Images, RunRecords, RecordDurable,
           Unsynced, CommitCount, OnlyAdds, NoNewFinals, Abs, DiskOnly;
      ghost var live := Live();
      var recovered := TakeOver(None, pinned);
      mid := store.disk;
      if recovered.Err? {
        return Err(recovered.error), mid;
      }
      r := store.DropMemory(pinned);
      Then(old(store.disk), mid, store.disk);
      CopiesBelow(mid, store.disk, live, nextWrite);
      OpSafe(mid, store.disk, live);
      ThenStopped(mid, store.disk);
      StepKept(mid, store.disk, live, nextWrite);
    }

    // ---------------------------------------------------------------- the end of a boot

    /** Power loss: the machine comes up with the writes numbered in `keep`. What is
        committed is what was committed at the moment `k`, and exactly those writes stay
        on the account that recovery finds: in the final snapshot in place at that moment
        of the run recorded then, or else in the saved state of that moment, or on what
        survives of the disk of the run that was dirty then. */
    method PowerLoss(keep: set<nat>) returns (ghost k: nat)
      requires Inv() && Allowed(store.disk.log, keep, store.disk.journaled)
      modifies this, store
      ensures Inv() && session.None? && nextWrite == old(nextWrite)
      ensures store.disk == Rebooted(old(store.disk), Survive(old(store.disk).base, old(store.disk).log, keep))
      ensures acked == old(acked) && dropped == old(dropped) && old(lost) <= lost
      ensures k <= |old(store.disk).log| && SameCommitted(store.disk, Past(old(store.disk), k))
      ensures Live() == KeptOf(store.disk, old(Live()))
      ensures forall w :: w in old(Live()) ==> (w in Live() <==> StillThere(Past(old(store.disk), k), store.disk, w))
      ensures forall w :: w in Live() ==> OnItsDisk(store.disk, w)
    {
      hide Valid, CrashSafe, Allowed, Survive, State, SafeFor, Booked, Flushed, SameCommitted, Past, StillThere,
           CrashState, Kept, OnItsDisk;
      ghost var d0, live := store.disk, Live();
      var survivor := Survive(store.disk.base, store.disk.log, keep);
      MayShow(d0, keep);
      RebootIsSafe(d0, survivor);
      k := LossMoment(d0, survivor);
      AccountIsOnDisk(d0, survivor, live);
      BookRebooted(d0, survivor, live, nextWrite);
      store.disk := Rebooted(store.disk, survivor);
      session := None;
      ghost var kept := KeptOf(store.disk, live);
      lost := lost + (live - kept);
      assert Live() == kept;
      FlushRebooted(store.disk, kept);
      BookFewer(store.disk, live, kept, nextWrite);
    }

    /** The owner is killed; the disk stays as it is. */
    method Die()
      requires Inv()
      modifies this`session
      ensures Inv() && session.None?
    {
      session := None;
    }
  }

  // ------------------------------------------------------------------------ histories

  /** Everything that can happen to an instance. */
  datatype Event =
    | Initialize(image: Files)
    | Start(imported: Option<Files>)
    | Command
    | GuestActs
    | GuestFlushes
    | GuestSnapshot(memory: Files)
    | TakeCheckpoint(id: CheckpointId, name: Option<string>, now: nat, memory: Files)
    | Stop(memory: Files)
    | GiveUp(quiesced: bool)
    | Kill
    | RecoverKeep
    | RecoverDiscard
    | Delete(checkpoint: CheckpointId)
    | RestoreTo(target: GenerationId, before: CheckpointId, at: nat)
    | EditSaved(edits: seq<Edit>, editOk: bool)
    | DropSavedMemory
    | LosePower(keep: set<nat>)

  /** The events by which a user gives saved or unsaved state up. */
  predicate Chooses(event: Event) {
    || event.RecoverDiscard? || event.RestoreTo? || event.EditSaved? || (event.Start? && event.imported.Some?)
  }

  /** The account after a power loss is that of an earlier moment of the boot. */
  ghost predicate BackTo(d: Disk, k: nat, now: Disk, live: set<nat>, live': set<nat>) {
    && k <= |d.log| && SameCommitted(now, Past(d, k)) && live' == KeptOf(now, live)
    && forall w :: w in live ==> (w in live' <==> StillThere(Past(d, k), now, w))
  }

  /** Plays any history of events, each operation cut off wherever `faulty` says, with
      any generations pinned meanwhile, over any number of boots. At the end, as after
      every event, every acknowledged write that no command of the user gave up and no
      power loss took is there for recovery: in the final snapshot it will roll forward
      to, or where there is none in the saved state or on the dirty run's disk. No
      published generation has changed. Events that the instance lock or the owner's
      state rule out do nothing. */
  method Play(machine: Machine, history: seq<Event>, pins: nat -> set<GenerationId>)
    requires machine.Inv()
    modifies machine, machine.store
    ensures machine.Inv() && old(machine.acked) <= machine.acked
    ensures forall w :: w in machine.acked ==>
              w in machine.dropped || w in machine.lost || Kept(machine.store.disk, w)
    ensures (forall k :: 0 <= k < |history| ==> !history[k].LosePower?) ==> machine.lost == old(machine.lost)
    ensures (forall k :: 0 <= k < |history| ==> !Chooses(history[k])) ==> machine.dropped == old(machine.dropped)
    ensures Grows(old(machine.store.disk).ledger, machine.store.disk.ledger)
  {
    hide State, Valid, SafeFor, Booked, Flushed, SessionOk, Grows, Later, RefOf, CrashState, CrashSafe, Chooses, BackTo,
         Allowed, Kept;
    GrowsSelf(machine.store.disk.ledger);
    for i := 0 to |history|
      invariant machine.Inv() && old(machine.acked) <= machine.acked
      invariant (forall k :: 0 <= k < i ==> !history[k].LosePower?) ==> machine.lost == old(machine.lost)
      invariant (forall k :: 0 <= k < i ==> !Chooses(history[k])) ==> machine.dropped == old(machine.dropped)
      invariant Grows(old(machine.store.disk).ledger, machine.store.disk.ledger)
    {
      ghost var before := machine.store.disk.ledger;
      PlayOne(machine, history[i], pins(i));
      GrowsTransitive(old(machine.store.disk).ledger, before, machine.store.disk.ledger);
    }
    SafeIsKept(machine.store.disk, machine.Live(), machine.nextWrite);
    assert forall w :: w in machine.acked && w !in machine.dropped && w !in machine.lost ==> w in machine.Live();
  }

  /** From an empty directory on a journaled file system. */
  method PlayFromNew(faulty: nat -> bool, history: seq<Event>, pins: nat -> set<GenerationId>) returns (machine: Machine)
    ensures fresh(machine) && fresh(machine.store) && machine.Inv()
    ensures forall w :: w in machine.acked ==>
              w in machine.dropped || w in machine.lost || Kept(machine.store.disk, w)
  {
    hide State, Valid, SafeFor, Booked, Flushed, SessionOk, CrashSafe, Chooses, Kept, Grows, AllBelow;
    var store := new Store(true, faulty);
    NewStoreIsBooked(store.disk);
    machine := new Machine(store, 0);
    Play(machine, history, pins);
  }

  /** What an event comes to where nothing fails: `was` and `now` are the owner's state before
      and after it, `a` and `b` the disk. */
  ghost predicate Does(event: Event, a: Disk, was: Option<Session>, b: Disk, now: Option<Session>) {
    if was.Some? then
      match event
      case GuestActs => exists w :: Wrote(a, b, was.value.run, w)
      case GuestFlushes => SyncedImage(b.base, b.log, was.value.run) == ImageOn(b.view, was.value.run)
      case GuestSnapshot(memory) => State(b).Some? && IsSaved(a, State(b).value.current, memory)
      case TakeCheckpoint(id, name, _, memory) =>
        && State(b).Some? && id in State(b).value.checkpoints && State(b).value.checkpoints[id].name == name
        && IsSaved(a, Some(State(b).value.checkpoints[id].files), memory)
      case Stop(memory) =>
        !was.value.sealed ==> now.None? && State(b).Some? && State(b).value.open.None? && IsSaved(a, State(b).value.current, memory)
      case GiveUp(quiesced) => now.None? && (was.value.dirty && quiesced ==> Salvaged(a, b))
      case Kill => now.None? && b == a
      case _ => true
    else
      match event
      case Initialize(image) =>
        State(a).None? && ROOTFS in ManifestFiles(image) ==> State(b).Some? && State(b).value.current == Some(Payload(image))
      case Start(imported) =>
        !Stuck(a) && (if imported.Some? then ROOTFS in ManifestFiles(Payload(imported.value)) else HasLatest(a)) ==>
          now.Some? && RunsFrom(b, now.value)
      case TakeCheckpoint(id, name, _, _) =>
        HasLatest(a) ==>
          && State(a).Some? && State(a).value.current.Some? && State(b).Some? && id in State(b).value.checkpoints
          && State(b).value.checkpoints[id] == SavedState(name, State(a).value.current.value)
      case RecoverKeep => Crashed(a) && HasRootfs(RunFiles(a, RecordOf(a.view).value.phase.run)) ==> Salvaged(a, b)
      case RecoverDiscard => Crashed(a) ==> Closed(a, b)
      case Delete(c) => RecordOf(a.view).Some? && RefOf(a.view, c).Some? ==> Forgotten(a, b, c)
      case RestoreTo(g, id, _) =>
        !Stuck(a) && !LatestAfterRecovery(a, None) && RefOf(a.view, id).None? && RefNames(a.view, g) ==>
          RecordOf(b.view) == Some(Record(Some(g), Stopped))
      case EditSaved(edits, editOk) =>
        !Stuck(a) && editOk ==> exists mid :: IsRecovered(a, mid) && EditedFrom(mid, b, edits)
      case DropSavedMemory => !Stuck(a) ==> exists mid :: IsRecovered(a, mid) && (if HasMemory(mid) then MemoryDropped(mid, b) else b == mid)
      case _ => true
  }

  ghost predicate IsSaved(a: Disk, saved: Option<Files>, memory: Files) {
    && State(a).Some? && State(a).value.open.Some? && saved.Some?
    && IsCapture(saved.value, memory, State(a).value.open.value.files)
  }

  ghost predicate HasLatest(d: Disk) { RecordOf(d.view).Some? && RecordOf(d.view).value.latest.Some? }

  ghost predicate Crashed(d: Disk) { RecordOf(d.view).Some? && RecordOf(d.view).value.phase.Dirty? }

  ghost predicate IsRecovered(a: Disk, b: Disk) { exists how :: Recovered(a, b, how) }

  /** Edited, or left alone where there is nothing to edit or the edit leaves no disk. */
  ghost predicate EditedFrom(mid: Disk, b: Disk, edits: seq<Edit>) {
    RecordOf(mid.view).Some? && Abs(mid).current.Some? && ROOTFS in ManifestFiles(AfterEdits(Abs(mid).current.value, edits)) ==>
      Derived(mid, b, edits)
  }

  /** One event: writes leave the account only by an explicit choice of the user or by
      a power loss, and a power loss takes it back to one earlier moment of the boot. Where
      nothing fails, it comes to what it is for. */
  method PlayOne(machine: Machine, event: Event, pinned: set<GenerationId>)
    requires machine.Inv()
    modifies machine, machine.store
    ensures machine.Inv() && old(machine.acked) <= machine.acked && old(machine.dropped) <= machine.dropped
    ensures !Chooses(event) ==> machine.dropped == old(machine.dropped)
    ensures !event.LosePower? ==> machine.lost == old(machine.lost)
    ensures event.LosePower? ==> machine.acked == old(machine.acked)
    ensures event.LosePower? && Allowed(old(machine.store.disk).log, event.keep, true) ==>
              exists k: nat :: BackTo(old(machine.store.disk), k, machine.store.disk, old(machine.Live()), machine.Live())
    ensures Grows(old(machine.store.disk).ledger, machine.store.disk.ledger)
    ensures !machine.store.Fallible() && !event.LosePower? ==>
              Does(event, old(machine.store.disk), old(machine.session), machine.store.disk, machine.session)
    ensures event.Command? && old(machine.session).Some? && !old(machine.session).value.sealed && !machine.store.Fallible() ==>
              old(machine.acked) < machine.acked
  {
    hide State, Valid, SafeFor, Booked, Flushed, SessionOk, Grows, Later, RefOf, Allowed, Survive, CrashSafe,
         SameCommitted, Past, StillThere, Kept, KeptOf, Does;
    ghost var before := machine.store.disk;
    GrowsSelf(before.ledger);
    if event.LosePower? {
      if Allowed(machine.store.disk.log, event.keep, machine.store.disk.journaled) {
        ghost var live := machine.Live();
        var k := machine.PowerLoss(event.keep);
        assert BackTo(before, k, machine.store.disk, live, machine.Live());
      }
    } else if machine.session.Some? {
      PlayRunning(machine, event, pinned);
    } else {
      PlayStopped(machine, event, pinned);
    }
  }

  /** An event while an owner runs the instance. */
  method PlayRunning(machine: Machine, event: Event, pinned: set<GenerationId>)
    requires machine.Inv() && machine.session.Some? && !event.LosePower?
    modifies machine, machine.store
    ensures machine.Inv() && old(machine.acked) <= machine.acked
    ensures machine.dropped == old(machine.dropped) && machine.lost == old(machine.lost)
    ensures Grows(old(machine.store.disk).ledger, machine.store.disk.ledger)
    ensures !machine.store.Fallible() ==>
              Does(event, old(machine.store.disk), old(machine.session), machine.store.disk, machine.session)
    ensures event.Command? && !old(machine.session).value.sealed && !machine.store.Fallible() ==> old(machine.acked) < machine.acked
  {
    hide State, Valid, SafeFor, Booked, Flushed, SessionOk, Grows, Later, CrashSafe, Kept, KeptOf, Writes, HasDisk,
         WroteLast, OpenWrites, SavedWrites, Salvaged, Closed, Wrote, SyncedImage, ImageOn, RecordDurable, RecordOf,
         IsCapture, RecordedAs;
    ghost var before := machine.store.disk;
    Unchanged(before);
    GrowsSelf(before.ledger);
    SessionHasDisk(before, machine.session.value);
    PhaseOfState(before);
    match event {
      case Command => var _, _, _ := machine.Dispatch();
      case GuestActs => machine.Background();
      case GuestFlushes => var _ := machine.Flush();
      case GuestSnapshot(memory) => var _ := machine.SnapshotExit(memory);
      case TakeCheckpoint(id, name, now, memory) => var _ := machine.LiveCheckpoint(id, name, now, memory);
      case Stop(memory) =>
        if !machine.session.value.sealed { var _ := machine.Finish(memory, pinned); }
      case GiveUp(quiesced) => machine.Abandon(quiesced, pinned);
      case Kill => machine.Die();
      case _ =>
    }
  }

  /** An event while nobody runs it. */
  method PlayStopped(machine: Machine, event: Event, pinned: set<GenerationId>)
    requires machine.Inv() && machine.session.None? && !event.LosePower?
    modifies machine, machine.store
    ensures machine.Inv() && old(machine.acked) <= machine.acked && old(machine.dropped) <= machine.dropped
    ensures !Chooses(event) ==> machine.dropped == old(machine.dropped)
    ensures machine.lost == old(machine.lost)
    ensures Grows(old(machine.store.disk).ledger, machine.store.disk.ledger)
    ensures !machine.store.Fallible() ==>
              Does(event, old(machine.store.disk), None, machine.store.disk, machine.session)
  {
    hide State, Valid, SafeFor, Booked, Flushed, SessionOk, Grows, Later, RefOf, CrashSafe, Kept, KeptOf, Writes,
         SavedWrites, RunsFrom, Recovered, Derived, Salvaged, Closed, Forgotten, MemoryDropped, HasMemory, RecordOf,
         Payload, ManifestFiles, AfterEdits, Abs, LatestAfterRecovery, RefNames, HasRootfs, RunFiles, Stuck;
    ghost var before := machine.store.disk;
    Unchanged(before);
    GrowsSelf(before.ledger);
    match event {
      case Initialize(image) => var _ := machine.Create(image, pinned);
      case Start(imported) => var _ := machine.Begin(imported, pinned);
      case TakeCheckpoint(id, name, now, _) => var _ := machine.Checkpoint(id, name, now);
      case RecoverKeep => var _ := machine.KeepDisk(pinned);
      case RecoverDiscard => var _ := machine.Discard(pinned);
      case Delete(c) => var _ := machine.DeleteCheckpoint(c, pinned);
      case RestoreTo(g, id, now) =>
        if RefOf(machine.store.disk.view, id).None? { var _ := machine.RollBack(g, id, now, pinned); }
      case EditSaved(edits, editOk) =>
        var r, mid := machine.Edit(edits, editOk, pinned);
        assert !machine.store.Fallible() && !Stuck(before) && editOk ==> IsRecovered(before, mid) && EditedFrom(mid, machine.store.disk, edits);
      case DropSavedMemory => var _, mid := machine.ForgetMemory(pinned);
      case _ =>
    }
  }

  /** What is acknowledged is not yet durable: right after a command was served, the
      drive may come up with everything but its write, and the write is lost. */
  method DispatchThenPowerLoss(machine: Machine) returns (served: bool, w: nat)
    requires machine.Inv() && machine.session.Some?
    modifies machine, machine.store
    ensures machine.Inv() && (!served ==> old(machine.session).value.sealed || machine.store.Fallible())
    ensures served ==> w in machine.acked && w in machine.lost && w !in old(machine.acked)
  {
    hide Valid, State, SafeFor, Booked, Flushed, Later, Grows, SessionOk, Writes, SameCommitted, Past, Kept, Survive,
         Upto, StillThere, HasDisk, Allowed;
    ghost var before;
    served, w, before := machine.Dispatch();
    if served {
      ghost var d := machine.store.disk;
      var keep := Upto(|machine.store.disk.log| - 1);
      AllButTheLast(before, d, machine.session.value.run, w);
      var k := machine.PowerLoss(keep);
      KeptByView(before, machine.store.disk, w);
      assert w !in machine.Live();
    }
  }
}
