/**
  A stop cut off by a power loss after its final snapshot was published and before the
  snapshot was committed (src/runner.rs:2347-2348). If the snapshot came through, so did
  all of the account that was on the run's disk: the next start, which rolls forward to
  the snapshot, and `recover --keep` and the deletion of a checkpoint, which may collect
  it, all leave the write of the last command where it can be found.
 */
module CutStops {
  import opened Layout
  import opened Journal
  import opened StoreModel
  import opened StoreWrites
  import opened Disks
  import opened RunDisks
  import opened Garbage
  import opened Instances
  import opened Stores
  import opened CheckpointOps
  import opened CrashTheorems
  import opened Accounts
  import opened OnDisk
  import opened Durability
  import opened Owners

  /** A command is served, the stop publishes its final snapshot, and the power goes; the
      drive keeps the writes numbered in `keep`, whatever it may. */
  method CutStop(machine: Machine, memory: Files, keep: set<nat>) returns (through: bool, w: nat)
    requires machine.Inv() && machine.session.Some? && !machine.session.value.sealed
    modifies machine, machine.store
    ensures machine.Inv() && w !in old(machine.acked)
    ensures through ==> machine.session.None? && w in machine.acked && w in machine.Live() && OnItsDisk(machine.store.disk, w)
    ensures through ==> RecordOf(machine.store.disk.view).Some? && RecordOf(machine.store.disk.view).value.phase.Dirty?
    ensures through ==> exists g :: RollsTo(machine.store.disk, g)
  {
    hide Valid, CrashSafe, State, SafeFor, Booked, Flushed, Later, Grows, FinalOf, Writes, Kept, Survive, StillThere,
         Allowed, WroteLast, RecordOf, IsFinal, PublishedPayload, RecordDurable, SurvivesEvery, AllBelow, OnItsDisk,
         SameCommitted, Past, CommitCount, CrashState, RollsTo;
    ghost var before;
    through, w, before := machine.Dispatch();
    if !through {
      return;
    }
    ghost var d1 := machine.store.disk;
    var run := machine.session.value.run;
    var final := machine.PublishFinal(memory);
    if final.Err? || !Allowed(machine.store.disk.log, keep, machine.store.disk.journaled) {
      return false, w;
    }
    ghost var d2 := machine.store.disk;
    MayShow(d2, keep);
    BookedOne(d2, machine.Live(), machine.nextWrite);
    PhaseOfState(d1);
    ghost var k := machine.PowerLoss(keep);
    through := IsInPlace(machine.store.disk.view, final.value);
    if through {
      CameThrough(d1, d2, machine.store.disk.view, run, final.value, w);
    }
  }

  /** If the snapshot came through, so did the record of its run: what it has is kept. */
  lemma CameThrough(a: Disk, b: Disk, survivor: Fs, run: RunId, g: GenerationId, w: nat)
    requires CrashSafe(a) && CrashSafe(b) && Later(a, b) && b.journaled && CommitCount(b.log) == CommitCount(a.log)
    requires RecordOf(b.view) == RecordOf(a.view) && RecordOf(a.view).Some? && RecordOf(a.view).value.phase == Dirty(run)
    requires g == a.ledger.nextGen && IsFinal(b, run, g) && OneFinal(b.ledger) && w in Writes(PublishedPayload(b.ledger, g))
    requires CrashState(b.base, b.log, b.journaled, survivor) && IsInPlace(survivor, g)
    ensures RecordOf(survivor) == RecordOf(a.view) && RollsTo(Rebooted(b, survivor), g) && Kept(Rebooted(b, survivor), w)
  {
    hide CrashSafe, Later, CrashState, RecordOf, State, Writes, PublishedPayload, CommitCount, View, SyncedImage,
         OneFinal, Kept, OriginOf;
    var now := Rebooted(b, survivor);
    var k := PowerLossShowsOneMoment(b, survivor);
    assert IsFinal(now, run, g);
    assert IsInPlace(Past(b, k).view, g);
    LaterPast(a, b, k);
    if k <= |a.log| { NotYetThere(a, k); }
    MomentIsBeforeOrAfter(a, b, k);
    FinalRolls(now, run, g);
    OneRoll(now, g, w);
  }

  lemma NotYetThere(d: Disk, k: nat)
    requires CrashSafe(d) && k <= |d.log|
    ensures !IsInPlace(Past(d, k).view, d.ledger.nextGen)
  {
    hide CrashSafe, View;
    PastIsGood(d, k);
    assert GenFresh(Past(d, k).view, d.ledger.nextGen);
  }

  // --------------------------------------------------------------- what may follow it

  /** The next start rolls forward to it. */
  method StartAfterCutStop(machine: Machine, memory: Files, keep: set<nat>, pinned: set<GenerationId>)
    returns (through: bool, w: nat, r: Outcome<Option<GenerationId>>)
    requires machine.Inv() && machine.session.Some? && !machine.session.value.sealed
    modifies machine, machine.store
    ensures machine.Inv() && (through ==> w in machine.acked && w in machine.Live())
    ensures through ==> (r.Ok? ==> w in SavedWrites(machine.store.disk)) && (!machine.store.Fallible() ==> r.Ok?)
  {
    hide Valid, CrashSafe, State, SafeFor, Booked, Flushed, Later, Grows, SessionOk, Kept, RecordOf, AllBelow,
         Recovered, SavedWrites, RollsTo, OnItsDisk;
    through, w := CutStop(machine, memory, keep);
    r := Err(Io);
    if through {
      r := machine.TakeOver(None, pinned);
      if r.Ok? { StoppedHasAll(machine.store.disk, machine.Live()); }
    }
  }

  lemma StoppedHasAll(d: Disk, live: set<nat>)
    requires SafeFor(State(d), live) && RecordOf(d.view).Some? && RecordOf(d.view).value.phase == Stopped
    ensures live <= SavedWrites(d)
  {
    hide RecordOf, Writes, SafeFor;
    PhaseOfState(d);
    AllSaved(State(d), d, live);
  }

  /** `recover --keep` saves the disk, which has it. */
  method KeepAfterCutStop(machine: Machine, memory: Files, keep: set<nat>, pinned: set<GenerationId>)
    returns (through: bool, w: nat, r: Outcome<GenerationId>)
    requires machine.Inv() && machine.session.Some? && !machine.session.value.sealed
    modifies machine, machine.store
    ensures machine.Inv() && (through ==> w in machine.acked && w in machine.Live())
    ensures through ==> (r.Ok? ==> w in SavedWrites(machine.store.disk)) && (!machine.store.Fallible() ==> r.Ok?)
  {
    hide Valid, CrashSafe, State, SafeFor, Booked, Flushed, Later, Grows, SessionOk, Kept, RecordOf, AllBelow, Salvaged,
         SavedWrites, RollsTo, OnItsDisk, HasRootfs, RunFiles;
    through, w := CutStop(machine, memory, keep);
    r := Err(Io);
    if through {
      DiskHasIt(machine.store.disk, w);
      r := machine.KeepDisk(pinned);
    }
  }

  lemma DiskHasIt(d: Disk, w: nat)
    requires OnItsDisk(d, w) && RecordOf(d.view).Some? && RecordOf(d.view).value.phase.Dirty?
    ensures HasRootfs(RunFiles(d, RecordOf(d.view).value.phase.run)) && w in OpenWrites(d)
  {
    hide RecordOf, Checkpoints, PublishedPayload;
  }

  /** Deleting a checkpoint leaves it on the disk of the run, which stays dirty. */
  method DeleteAfterCutStop(machine: Machine, memory: Files, keep: set<nat>, c: CheckpointId, pinned: set<GenerationId>)
    returns (through: bool, w: nat, r: Outcome<()>)
    requires machine.Inv() && machine.session.Some? && !machine.session.value.sealed
    modifies machine, machine.store
    ensures machine.Inv() && (through ==> w in machine.acked && w in machine.Live())
    ensures through ==> RecordOf(machine.store.disk.view).Some? && RecordOf(machine.store.disk.view).value.phase.Dirty?
    ensures through ==> w in OpenWrites(machine.store.disk)
  {
    hide Valid, CrashSafe, State, SafeFor, Booked, Flushed, Later, Grows, SessionOk, Kept, RecordOf, AllBelow,
         Forgotten, OpenWrites, RollsTo, OnItsDisk, RefOf;
    through, w := CutStop(machine, memory, keep);
    r := Err(Io);
    if through {
      r := machine.DeleteCheckpoint(c, pinned);
      OpenHasAll(machine.store.disk, machine.Live());
    }
  }

  lemma OpenHasAll(d: Disk, live: set<nat>)
    requires SafeFor(State(d), live) && RecordOf(d.view).Some? && RecordOf(d.view).value.phase.Dirty?
    ensures live <= OpenWrites(d)
  {
    hide RecordOf, Writes;
    PhaseOfState(d);
  }
}
