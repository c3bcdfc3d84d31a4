/**
  A fork's copy of a generation into a new store (src/store.rs:680-708), and what
  that copy holds however much happened to the source in between.
 */
module Exports {
  import opened Layout
  import opened Journal
  import opened StoreModel
  import opened StoreWrites
  import opened Disks
  import opened RunDisks
  import opened Garbage
  import opened Instances
  import opened Stores
  import opened CheckpointOps
  import opened CrashTheorems
  import opened Accounts
  import opened Owners

  /** What the copy takes: the listed files, the manifest, the pin, the host-share state. */
  function Exported(files: Files): Files {
    map n | n in files && (files[n].Data? || n == MANIFEST || n == PIN || n == HOST_SHARE_STATE) :: files[n]
  }

  lemma ExportedIsWhole(g: GenerationId, files: Files)
    requires WellFormed(g, files)
    ensures WellFormed(g, Exported(files)) && Payload(Exported(files)) == Payload(files)
    ensures forall n :: Started(files, n) ==> Started(Exported(files), n)
  {
  }

  /** The copy under way: only this generation's directory has been touched. */
  ghost predicate Exporting(d: Disk, g: GenerationId, files: Files) {
    && CrashSafe(d) && !d.journaled && g < d.ledger.nextGen && d.ledger.published == map[]
    && IsInPlace(d.view, g) && ChildrenAre(d.view, g, files)
    && Only(InGen(g), map[], d.view)
    && (forall l :: l in Pending(d.log) ==> OfGen(l, g))
  }

  lemma ExportWriteIsSafe(d: Disk, g: GenerationId, l: Loc, v: Val)
    requires CrashSafe(d) && !d.journaled && g < d.ledger.nextGen && g !in d.ledger.published && OfGen(l, g)
    ensures CrashSafe(Written(d, l, v, d.ledger)) && Later(d, Written(d, l, v, d.ledger))
    ensures Pending(Written(d, l, v, d.ledger).log) == Pending(d.log) + {l}
  {
    hide Good, Extends, CrashSafe, LedgerOk;
    forall fs | Good(fs, d.ledger, d.journaled) ensures Good(fs[l := v], d.ledger, d.journaled) {
      UnpublishedIsUnnamed(fs, d.ledger, d.journaled, g);
      UnnamedGenWrite(fs, d.ledger, d.journaled, g, l, v);
    }
    assert WriteIsGood(d, l, v, d.ledger);
    GrowsSelf(d.ledger);
    WrittenIsSafe(d, l, v, d.ledger);
  }

  /** A new store, on a file system that orders nothing by itself; ids are unique
      across stores. */
  ghost predicate NewStore(d: Disk, source: Ledger) {
    && Valid(d) && !d.journaled && d.view == map[] && d.log == []
    && d.ledger == Ledger(map[], map[], map[], map[], source.nextGen, source.nextRun, d.ledger.nextInode)
  }

  lemma ExportStarts(d: Disk, source: Ledger, g: GenerationId)
    requires NewStore(d, source) && g < source.nextGen
    ensures CrashSafe(d) && Only(InGen(g), map[], d.view)
    ensures Exporting(Written(d, GenDir(g), DirVal(InPlace), d.ledger), g, map[])
    ensures Later(d, Written(d, GenDir(g), DirVal(InPlace), d.ledger))
  {
    hide CrashSafe, View, Survive;
    ExportWriteIsSafe(d, g, GenDir(g), DirVal(InPlace));
  }

  lemma ExportChild(d: Disk, g: GenerationId, files: Files, n: Name, c: Content)
    requires Exporting(d, g, files)
    ensures var d1 := Written(d, GenName(g, n), Present, d.ledger);
            var d2 := Written(d1, GenFile(g, n), FileVal(c), d.ledger);
            && CrashSafe(d1) && Later(d, d1) && Later(d, d2) && Only(InGen(g), map[], d1.view) && Exporting(d2, g, files[n := c])
  {
    hide CrashSafe, Pending, View;
    var d1 := Written(d, GenName(g, n), Present, d.ledger);
    var d2 := Written(d1, GenFile(g, n), FileVal(c), d.ledger);
    ExportWriteIsSafe(d, g, GenName(g, n), Present);
    ExportWriteIsSafe(d1, g, GenFile(g, n), FileVal(c));
    var files' := files[n := c];
    forall m ensures ChildIs(d2.view, g, m, files') { assert ChildIs(d.view, g, m, files); }
  }

  lemma ExportSync(d: Disk, g: GenerationId, files: Files, o: Obj)
    requires Exporting(d, g, files)
    ensures Exporting(SyncedOn(d, o), g, files) && Later(d, SyncedOn(d, o))
    ensures Pending(SyncedOn(d, o).log) == After(Pending(d.log), o)
  {
    hide CrashSafe, Pending, View, ChildrenAre, Only;
    SyncedIsSafe(d, o);
  }

  /** Nothing but the directory of `g`: no record and no checkpoint. */
  lemma NothingCommitted(d: Disk, g: GenerationId)
    requires Only(InGen(g), map[], d.view)
    ensures Get(d.view, RecordEntry) == Absent && RecordOf(d.view) == None && State(d) == None
    ensures forall c :: Get(d.view, RefEntry(c)) == Absent && RefOf(d.view, c) == None
    ensures forall h :: h != g ==> !IsInPlace(d.view, h)
  {
    forall l | !OfGen(l, g) ensures Get(d.view, l) == Absent { assert Get(map[], l) == Get(d.view, l); }
    forall c ensures Get(d.view, RefEntry(c)) == Absent { assert !OfGen(RefEntry(c), g); }
    forall h | h != g ensures !IsInPlace(d.view, h) { assert !OfGen(GenDir(h), g); }
  }

  /** Synced, the copy may be named by a record. */
  lemma ExportReady(d: Disk, g: GenerationId, files: Files)
    requires Exporting(d, g, files) && WellFormed(g, files) && Started(files, d.ledger.nextRun)
    requires TreeSynced(Pending(d.log), g, files.Keys) && GenDir(g) !in Pending(d.log)
    ensures var d1 := Noted(d, WithGeneration(d.ledger, g, files));
            Valid(d1) && Later(d, d1) && MayCommit(d1, Record(Some(g), Stopped))
  {
    hide CrashSafe, Good, Safe, WellFormed, Started, Pending;
    var d1 := Noted(d, WithGeneration(d.ledger, g, files));
    PublishLedger(d.ledger, g, files);
    NothingCommitted(d, g);
    ExportedSafe(d, g, files);
    assert Complete(d1.view, d1.ledger, g);
    assert InPlaceComplete(d1.view, d1.ledger);
    forall c ensures StableLoc(Pending(d.log), d.journaled, RefEntry(c)) { assert !OfGen(RefEntry(c), g); }
    assert !OfGen(RecordEntry, g);
    assert GenSettled(d1.view, Pending(d.log), d.journaled, d1.ledger, g);
    assert Settled(d1.view, Pending(d.log), d.journaled, d1.ledger);
  }

  lemma ExportedSafe(d: Disk, g: GenerationId, files: Files)
    requires CrashSafe(d) && Grows(d.ledger, WithGeneration(d.ledger, g, files)) && LedgerOk(WithGeneration(d.ledger, g, files))
    ensures CrashSafe(Noted(d, WithGeneration(d.ledger, g, files)))
  {
    hide Good, Safe, Grows, LedgerOk;
    SafeGrows(d.base, d.log, d.journaled, d.ledger, WithGeneration(d.ledger, g, files));
  }

  /** Copies `files` into the new directory, one at a time. */
  method FillExport(dest: Store, g: GenerationId, files: Files) returns (r: Outcome<()>)
    requires Exporting(dest.disk, g, map[])
    modifies dest
    ensures CrashSafe(dest.disk) && Later(old(dest.disk), dest.disk) && Only(InGen(g), map[], dest.disk.view)
    ensures dest.disk.ledger == old(dest.disk).ledger
    ensures r.Ok? ==> Exporting(dest.disk, g, files)
    ensures r.Err? ==> r == Err(Io) && dest.Fallible()
    ensures NeverHome(old(dest.disk)) ==> NeverHome(dest.disk)
  {
    hide NeverHome, CrashSafe, Later, Grows, Exporting, Filled, Only;
    ExportingMeans(dest.disk, g, map[]);
    Unchanged(dest.disk);
    FilledStart(map[], files);
    var todo := files.Keys;
    ghost var sofar: Files := map[];
    while todo != {}
      invariant Exporting(dest.disk, g, sofar) && Later(old(dest.disk), dest.disk)
      invariant dest.disk.ledger == old(dest.disk).ledger
      invariant NeverHome(old(dest.disk)) ==> NeverHome(dest.disk)
      invariant todo <= files.Keys && Filled(map[], files, todo, sofar)
      decreases todo
    {
      var n :| n in todo;
      ghost var was := dest.disk;
      ExportingMeans(was, g, sofar);
      ExportChild(was, g, sofar, n, files[n]);
      var w := dest.Write(GenName(g, n), Present, dest.disk.ledger);
      Unchanged(was);
      if w.Err? {
        return Err(Io);
      }
      Then(old(dest.disk), was, dest.disk);
      w := dest.Write(GenFile(g, n), FileVal(files[n]), dest.disk.ledger);
      if w.Err? {
        return Err(Io);
      }
      Then(old(dest.disk), was, dest.disk);
      FilledStep(map[], files, todo, sofar, n);
      sofar := sofar[n := files[n]];
      todo := todo - {n};
    }
    FilledDone(map[], files, sofar);
    assert map[] + files == files;
    ExportingMeans(dest.disk, g, files);
    r := Ok(());
  }

  lemma ExportingMeans(d: Disk, g: GenerationId, files: Files)
    requires Exporting(d, g, files)
    ensures CrashSafe(d) && Only(InGen(g), map[], d.view) && ChildrenAre(d.view, g, files)
  {
  }

  method SyncExport(dest: Store, g: GenerationId, files: Files) returns (r: Outcome<()>)
    requires Exporting(dest.disk, g, files)
    modifies dest
    ensures Exporting(dest.disk, g, files) && Later(old(dest.disk), dest.disk) && dest.disk.ledger == old(dest.disk).ledger
    ensures r.Ok? ==> TreeSynced(Pending(dest.disk.log), g, files.Keys) && GenDir(g) !in Pending(dest.disk.log)
    ensures r.Err? ==> r == Err(Io) && dest.Fallible()
    ensures NeverHome(old(dest.disk)) ==> NeverHome(dest.disk)
  {
    hide NeverHome, CrashSafe, Later, Grows, Exporting, Pending, TreeSynced, FilesSynced, After;
    Unchanged(dest.disk);
    NoneSynced(Pending(dest.disk.log), InGen(g));
    var todo := files.Keys;
    while todo != {}
      invariant Exporting(dest.disk, g, files) && Later(old(dest.disk), dest.disk) && dest.disk.ledger == old(dest.disk).ledger
      invariant NeverHome(old(dest.disk)) ==> NeverHome(dest.disk)
      invariant todo <= files.Keys && FilesSynced(Pending(dest.disk.log), InGen(g), files.Keys - todo)
      decreases todo
    {
      var n :| n in todo;
      ghost var was := dest.disk;
      ExportSync(was, g, files, GenFileObj(g, n));
      OneMoreSynced(Pending(was.log), InGen(g), files.Keys - todo, n);
      var w := dest.SyncOne(GenFileObj(g, n));
      if w.Err? {
        return Err(Io);
      }
      Then(old(dest.disk), was, dest.disk);
      assert files.Keys - todo + {n} == files.Keys - (todo - {n});
      todo := todo - {n};
    }
    assert files.Keys - todo == files.Keys;
    ghost var was := dest.disk;
    ExportSync(was, g, files, GenDirObj(g));
    TreeIsSynced(Pending(was.log), g, files.Keys);
    var w := dest.SyncOne(GenDirObj(g));
    if w.Err? {
      return Err(Io);
    }
    Then(old(dest.disk), was, dest.disk);
    ghost var tree := dest.disk;
    ExportSync(tree, g, files, GenerationsDir);
    w := dest.SyncOne(GenerationsDir);
    if w.Err? {
      return Err(Io);
    }
    Then(old(dest.disk), tree, dest.disk);
    StillSynced(Pending(tree.log), g, files.Keys);
    r := Ok(());
  }

  lemma StillSynced(pending: set<Loc>, g: GenerationId, names: set<Name>)
    requires TreeSynced(pending, g, names)
    ensures TreeSynced(After(pending, GenerationsDir), g, names) && GenDir(g) !in After(pending, GenerationsDir)
  {
  }

  /** The instance that an export makes. */
  function Fork(files: Files): Instance { Instance(Some(files), map[], None) }

  /** The copied directory, synced; nothing names it yet. */
  method CopyOut(dest: Store, g: GenerationId, files: Files, ghost source: Ledger) returns (r: Outcome<()>)
    requires NewStore(dest.disk, source) && g < source.nextGen
    modifies dest
    ensures CrashSafe(dest.disk) && Later(old(dest.disk), dest.disk) && dest.disk.ledger == old(dest.disk).ledger
    ensures Only(InGen(g), map[], dest.disk.view)
    ensures r.Ok? ==>
              && Exporting(dest.disk, g, files)
              && TreeSynced(Pending(dest.disk.log), g, files.Keys) && GenDir(g) !in Pending(dest.disk.log)
    ensures r.Err? ==> r == Err(Io) && dest.Fallible()
    ensures NeverHome(old(dest.disk)) ==> NeverHome(dest.disk)
  {
    hide NeverHome, CrashSafe, Later, Grows, Exporting, NewStore, Only, Pending, TreeSynced;
    ExportStarts(dest.disk, source, g);
    Unchanged(dest.disk);
    r := dest.Write(GenDir(g), DirVal(InPlace), dest.disk.ledger);
    if r.Err? {
      return;
    }
    ghost var d1 := dest.disk;
    r := FillExport(dest, g, files);
    ghost var d2 := dest.disk;
    Then(old(dest.disk), d1, d2);
    if r.Err? {
      return;
    }
    r := SyncExport(dest, g, files);
    Then(old(dest.disk), d2, dest.disk);
    ExportingMeans(dest.disk, g, files);
  }

  /** A new store whose saved state is a copy of generation `g` of `source`, which
      stays as it is. Wherever the export stops, the new store has no record, or
      one that names the whole copy. */
  method Export(source: Store, g: GenerationId, dest: Store) returns (r: Outcome<()>)
    requires Valid(source.disk) && IsInPlace(source.disk.view, g) && source != dest
    requires NewStore(dest.disk, source.disk.ledger)
    modifies dest
    ensures CrashSafe(dest.disk) && Later(old(dest.disk), dest.disk)
    ensures r.Ok? ==> Valid(dest.disk) && State(dest.disk) == Some(Fork(PublishedPayload(source.disk.ledger, g)))
    ensures r.Err? ==>
              && r == Err(Io) && dest.Fallible()
              && (State(dest.disk) == None || State(dest.disk) == Some(Fork(PublishedPayload(source.disk.ledger, g))))
    ensures NeverHome(old(dest.disk)) ==> NeverHome(dest.disk)
  {
    hide NeverHome, Valid, CrashSafe, Later, Grows, Exporting, NewStore, State, Only, Pending, TreeSynced, WellFormed, Started,
         ChildrenAre, Exported, Payload, MayCommit, ReadGeneration;
    ReadGenerationIs(source.disk, g);
    ChildrenIs(source.disk.view, g, source.disk.ledger.published[g]);
    var files := Exported(Children(source.disk.view, g));
    ExportedIsWhole(g, source.disk.ledger.published[g]);
    SourceIsOld(source.disk, dest.disk, g);
    var w := CopyOut(dest, g, files, source.disk.ledger);
    ghost var d1 := dest.disk;
    NothingCommitted(d1, g);
    if w.Err? {
      return Err(Io);
    }
    ExportReady(d1, g, files);
    if NeverHome(d1) { StillNotHome(d1, RecordEntry, Absent, WithGeneration(d1.ledger, g, files), InstanceDir); }
    dest.disk := Noted(dest.disk, WithGeneration(dest.disk.ledger, g, files));
    ghost var d2 := dest.disk;
    Then(old(dest.disk), d1, d2);
    r := dest.CommitRecord(Record(Some(g), Stopped));
    Then(old(dest.disk), d2, dest.disk);
    ForkIs(d2, dest.disk, g, files);
  }

  lemma SourceIsOld(source: Disk, dest: Disk, g: GenerationId)
    requires Valid(source) && IsInPlace(source.view, g) && NewStore(dest, source.ledger)
    ensures g < source.ledger.nextGen && g in source.ledger.published && WellFormed(g, source.ledger.published[g])
    ensures Started(source.ledger.published[g], dest.ledger.nextRun)
    ensures dest.ledger.published == map[]
  {
    hide WellFormed, Started;
    assert Complete(source.view, source.ledger, g);
  }

  lemma ForkIs(a: Disk, b: Disk, g: GenerationId, files: Files)
    requires Valid(a) && MayCommit(a, Record(Some(g), Stopped)) && Later(a, b) && Only(InRecord, a.view, b.view)
    requires a.ledger.published == map[g := files] && Only(InGen(g), map[], a.view)
    requires RecordOf(b.view) == RecordOf(a.view) || RecordOf(b.view) == Some(Record(Some(g), Stopped))
    ensures RecordOf(b.view) == Some(Record(Some(g), Stopped)) ==> State(b) == Some(Fork(Payload(files)))
    ensures RecordOf(b.view) == RecordOf(a.view) ==> State(b) == None
  {
    hide Valid, CrashSafe, MayCommit, Later, Grows, Only, Payload, RecordOf;
    NothingCommitted(a, g);
    if RecordOf(b.view) == Some(Record(Some(g), Stopped)) {
      CommitState(a, b, Record(Some(g), Stopped));
      NoCheckpoints(a);
    }
  }

  lemma NoCheckpoints(d: Disk)
    requires forall c :: RefOf(d.view, c) == None
    ensures Checkpoints(d) == map[]
  {
    RefIdsAre(d.view);
  }

  /** A checkpoint that is still the same reference holds what it held. */
  lemma CheckpointStays(a: Disk, b: Disk, c: CheckpointId)
    requires CrashSafe(a) && Grows(a.ledger, b.ledger) && RefOf(a.view, c).Some? && RefOf(b.view, c) == RefOf(a.view, c)
    ensures c in Checkpoints(a) && c in Checkpoints(b) && Checkpoints(b)[c] == Checkpoints(a)[c]
    ensures PublishedPayload(b.ledger, RefOf(b.view, c).value.generation) == Checkpoints(a)[c].files
  {
    hide CrashSafe, RefOf, Payload, Grows;
    RefIdsAre(a.view);
    RefIdsAre(b.view);
    RefIsPublished(a, c);
    PayloadKept(a.ledger, b.ledger, RefOf(a.view, c).value.generation);
  }

  // ---------------------------------------------------------------- publishing

  /** The new instance was given its name: everything about it that was committed came
      first (src/checkpoints.rs:323-350). */
  function Homed(d: Disk): Disk { Written(d, HomeEntry, DirVal(InPlace), d.ledger) }

  /** Whatever a power loss leaves of a fork that was being published, the destination is
      not there, or it is the whole new instance: on any drive, with or without a journal. */
  lemma ForkIsAllOrNothing(d: Disk, survivor: Fs)
    requires Valid(d) && NeverHome(d) && RecordOf(d.view).Some?
    requires CrashState(d.base, Homed(d).log, d.journaled, survivor)
    ensures || Get(survivor, HomeEntry) == Absent
            || (&& Get(survivor, HomeEntry) == DirVal(InPlace)
                && RecordOf(survivor) == RecordOf(d.view) && RecordSupported(survivor, d.ledger, RecordOf(d.view).value)
                && SameRefs(survivor, d.view))
  {
    hide Valid, CrashSafe, CrashState, Settled, Complete, RunComplete, RefOf, InPlaceComplete;
    var before := CrashAfterPut(d.base, d.log, d.journaled, HomeEntry, DirVal(InPlace), survivor);
    if CrashState(d.base, d.log, d.journaled, survivor) && before == survivor {
      NotHomeBefore(d, survivor);
    } else {
      ForkedWhole(d, before, survivor);
    }
  }

  lemma NotHomeBefore(d: Disk, survivor: Fs)
    requires NeverHome(d) && CrashState(d.base, d.log, d.journaled, survivor)
    ensures Get(survivor, HomeEntry) == Absent
  {
    var keep: set<nat> :| Allowed(d.log, keep, d.journaled) && survivor == Survive(d.base, d.log, keep);
    var k := SurvivorIsPast(d.base, d.log, keep, HomeEntry, 0);
    NotHomeAt(d.base, d.log, k);
  }

  lemma {:induction false} NotHomeAt(base: Fs, log: seq<Entry>, k: nat)
    requires k <= |log| && Get(base, HomeEntry) == Absent && forall i: nat :: IsPut(log, i) ==> log[i].loc != HomeEntry
    ensures Get(View(base, log[..k]), HomeEntry) == Absent
    decreases k
  {
    if k > 0 {
      NotHomeAt(base, log, k - 1);
      assert log[..k][..k - 1] == log[..k - 1];
      assert log[k - 1].Put? ==> IsPut(log, k - 1);
    }
  }

  lemma ForkedWhole(d: Disk, before: Fs, survivor: Fs)
    requires Valid(d) && RecordOf(d.view).Some? && survivor == before[HomeEntry := DirVal(InPlace)]
    requires CrashState(d.base, d.log, d.journaled, before) && ForcedState(d.base, d.log, d.journaled, HomeEntry, before)
    ensures Get(survivor, HomeEntry) == DirVal(InPlace)
    ensures RecordOf(survivor) == RecordOf(d.view) && SameRefs(survivor, d.view)
    ensures RecordSupported(survivor, d.ledger, RecordOf(d.view).value)
  {
    hide CrashState, ForcedState, Pending, Settled, InPlaceComplete, ImagesGrow, LedgerOk, View;
    forall l | l !in Pending(d.log) || (d.journaled && IsMeta(l)) ensures Get(before, l) == Get(d.view, l) {
      ForcedShowsStable(d.base, d.log, d.journaled, HomeEntry, before, l);
    }
    SettledShows(before, d.view, Pending(d.log), d.ledger, d.journaled, HomeEntry);
    HomeWrite(before, d.ledger, d.journaled, DirVal(InPlace));
    forall c ensures RefOf(survivor, c) == RefOf(before, c) {}
    ViewIsGood(d);
  }

  /** Once it is reported done, the fork survives every power loss on a drive whose
      syncs wait. */
  lemma DoneForkSurvives(d: Disk, survivor: Fs)
    requires Valid(d) && NeverHome(d) && RecordOf(d.view).Some?
    requires FlushedCrashState(d.base, Homed(d).log + [Sync(InstancesDir)], d.journaled, survivor)
    ensures Get(survivor, HomeEntry) == DirVal(InPlace) && RecordOf(survivor) == RecordOf(d.view)
    ensures RecordSupported(survivor, d.ledger, RecordOf(d.view).value)
  {
    hide Valid, CrashSafe, Complete, RunComplete, View, Survive, Pending;
    var d1 := Homed(d);
    var log := d1.log + [Sync(InstancesDir)];
    HomeWriteIsValid(d, DirVal(InPlace));
    SyncedIsValid(d1, InstancesDir);
    SettledSurvives(SyncedOn(d1, InstancesDir), survivor, HomeEntry);
    FlushedIsGood(SyncedOn(d1, InstancesDir), survivor);
    CrashAfterSync(d.base, d1.log, d.journaled, InstancesDir, survivor);
    ForkIsAllOrNothing(d, survivor);
  }

  /** The one rename that publishes an assembled instance, and the sync of its parent. */
  method PublishFork(dest: Store) returns (r: Outcome<()>)
    requires Valid(dest.disk) && NeverHome(dest.disk) && RecordOf(dest.disk.view).Some?
    modifies dest
    ensures Valid(dest.disk) && Later(old(dest.disk), dest.disk) && State(dest.disk) == State(old(dest.disk))
    ensures dest.disk.ledger == old(dest.disk).ledger
    ensures forall fs :: CrashState(dest.disk.base, dest.disk.log, dest.disk.journaled, fs) ==>
              AbsentOrWhole(old(dest.disk), fs)
    ensures r.Ok? ==> forall fs :: FlushedCrashState(dest.disk.base, dest.disk.log, dest.disk.journaled, fs) ==>
              Get(fs, HomeEntry) == DirVal(InPlace) && AbsentOrWhole(old(dest.disk), fs)
    ensures r.Err? ==> r == Err(Io) && dest.Fallible()
  {
    hide Valid, CrashSafe, Later, Grows, NeverHome, State, RecordOf, CrashState, FlushedCrashState, AbsentOrWhole, Images,
         Unsynced, CommitCount;
    ghost var d := dest.disk;
    Unchanged(d);
    HomeWriteIsValid(d, DirVal(InPlace));
    SyncedIsValid(Homed(d), InstancesDir);
    HomeKeepsState(d);
    AlwaysAbsentOrWhole(d);
    var w := dest.Write(HomeEntry, DirVal(InPlace), dest.disk.ledger);
    if w.Err? {
      return Err(Io);
    }
    w := dest.SyncOne(InstancesDir);
    if w.Err? {
      return Err(Io);
    }
    Then(d, Homed(d), dest.disk);
    r := Ok(());
  }

  /** The destination is not there, or holds the instance with the saved state, the
      checkpoints and the record that were assembled. */
  ghost predicate AbsentOrWhole(d: Disk, fs: Fs) {
    || Get(fs, HomeEntry) == Absent
    || (&& Get(fs, HomeEntry) == DirVal(InPlace) && RecordOf(fs) == RecordOf(d.view) && RecordOf(fs).Some?
        && RecordSupported(fs, d.ledger, RecordOf(fs).value) && State(Rebooted(d, fs)).value.current == State(d).value.current)
  }

  lemma AlwaysAbsentOrWhole(d: Disk)
    requires Valid(d) && NeverHome(d) && RecordOf(d.view).Some?
    ensures forall fs :: CrashState(d.base, d.log, d.journaled, fs) ==> AbsentOrWhole(d, fs)
    ensures forall fs :: CrashState(d.base, Homed(d).log, d.journaled, fs) ==> AbsentOrWhole(d, fs)
    ensures var log := Homed(d).log + [Sync(InstancesDir)];
            && (forall fs :: CrashState(d.base, log, d.journaled, fs) ==> AbsentOrWhole(d, fs))
            && (forall fs :: FlushedCrashState(d.base, log, d.journaled, fs) ==>
                  Get(fs, HomeEntry) == DirVal(InPlace) && AbsentOrWhole(d, fs))
  {
    hide Valid, CrashSafe, NeverHome, CrashState, FlushedCrashState, RecordSupported, Checkpoints, RefOf, RecordOf;
    var log := Homed(d).log + [Sync(InstancesDir)];
    forall fs | CrashState(d.base, d.log, d.journaled, fs) ensures AbsentOrWhole(d, fs) { NotHomeBefore(d, fs); }
    forall fs | CrashState(d.base, Homed(d).log, d.journaled, fs) ensures AbsentOrWhole(d, fs) { ForkIsAllOrNothing(d, fs); }
    forall fs | CrashState(d.base, log, d.journaled, fs) ensures AbsentOrWhole(d, fs) {
      CrashAfterSync(d.base, Homed(d).log, d.journaled, InstancesDir, fs);
      ForkIsAllOrNothing(d, fs);
    }
    forall fs | FlushedCrashState(d.base, log, d.journaled, fs)
      ensures Get(fs, HomeEntry) == DirVal(InPlace) && AbsentOrWhole(d, fs)
    {
      DoneForkSurvives(d, fs);
    }
  }

  lemma HomeKeepsState(d: Disk)
    requires CrashSafe(d)
    ensures State(Homed(d)) == State(d) && State(SyncedOn(Homed(d), InstancesDir)) == State(d)
  {
    hide CrashSafe, State, Grows;
    GrowsSelf(d.ledger);
    StateKept(d, Homed(d));
    StateKept(d, SyncedOn(Homed(d), InstancesDir));
  }

  /** Generations are immutable: forked after any history of runs, edits, restores,
      collections and crashes, a checkpoint still yields exactly what it named at
      the start, and forking it leaves the source alone. */
  method ForkAfter(machine: Machine, history: seq<Event>, c: CheckpointId, pins: nat -> set<GenerationId>,
                   faulty: nat -> bool)
    returns (r: Outcome<()>, dest: Store)
    requires machine.Inv() && RefOf(machine.store.disk.view, c).Some?
    modifies machine, machine.store
    ensures machine.Inv() && fresh(dest)
    ensures r.Ok? ==>
              && c in Checkpoints(old(machine.store.disk))
              && State(dest.disk) == Some(Fork(Checkpoints(old(machine.store.disk))[c].files))
    ensures r.Ok? ==> forall fs :: FlushedCrashState(dest.disk.base, dest.disk.log, dest.disk.journaled, fs) ==>
              && Get(fs, HomeEntry) == DirVal(InPlace) && State(Rebooted(dest.disk, fs)).Some?
              && State(Rebooted(dest.disk, fs)).value.current == Some(Checkpoints(old(machine.store.disk))[c].files)
    ensures r == Err(NoSuchCheckpoint) <==> RefOf(machine.store.disk.view, c) != RefOf(old(machine.store.disk).view, c)
    ensures r.Err? && r != Err(NoSuchCheckpoint) ==> exists k :: faulty(k)
  {
    hide Valid, CrashSafe, RefOf, Checkpoints, PublishedPayload, State, SafeFor, Booked, SessionOk, Grows, Later, NewStore, Kept,
         Chooses, AbsentOrWhole, CrashState, FlushedCrashState, NeverHome, RecordOf, AllBelow;
    var named := RefOf(machine.store.disk.view, c);
    Play(machine, history, pins);
    dest := new Store(false, faulty);
    if RefOf(machine.store.disk.view, c) != named {
      return Err(NoSuchCheckpoint), dest;
    }
    ghost var d0, d1 := old(machine.store.disk), machine.store.disk;
    CheckpointStays(d0, d1, c);
    RefIsInPlace(d1, c);
    EmptyStoreIsNew(dest.disk, d1.ledger);
    var ledger := machine.store.disk.ledger;
    dest.disk := Noted(dest.disk, Ledger(map[], map[], map[], map[], ledger.nextGen, ledger.nextRun, 0));
    NewIsNotHome(dest.disk, ledger);
    r := Export(machine.store, named.value.generation, dest);
    if r.Err? {
      return;
    }
    ForkHasRecord(dest.disk);
    ghost var whole := dest.disk;
    r := PublishFork(dest);
    HomedIsFork(whole, dest.disk);
  }

  lemma NewIsNotHome(d: Disk, source: Ledger)
    requires NewStore(d, source)
    ensures NeverHome(d)
  {
  }

  lemma ForkHasRecord(d: Disk)
    requires State(d).Some?
    ensures RecordOf(d.view).Some?
  {
  }

  lemma HomedIsFork(a: Disk, b: Disk)
    requires b.ledger == a.ledger && State(a).Some?
    ensures forall fs :: Get(fs, HomeEntry) == DirVal(InPlace) && AbsentOrWhole(a, fs) ==>
              State(Rebooted(b, fs)).Some? && State(Rebooted(b, fs)).value.current == State(a).value.current
  {
    hide Checkpoints, RecordSupported;
  }

  lemma EmptyStoreIsNew(d: Disk, source: Ledger)
    requires Valid(d) && !d.journaled && d.view == map[] && d.base == map[] && d.log == []
    requires d.ledger == Ledger(map[], map[], map[], map[], 0, 0, 0)
    ensures NewStore(Noted(d, Ledger(map[], map[], map[], map[], source.nextGen, source.nextRun, 0)), source)
  {
    hide Valid;
    NotedIsValid(d, Ledger(map[], map[], map[], map[], source.nextGen, source.nextRun, 0));
  }
}
