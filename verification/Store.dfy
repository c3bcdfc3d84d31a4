/**
  The instance store of src/store.rs as an object that changes its disk step by
  step, in the order the source issues its writes and syncs.

  Every write and every sync may fail (`faulty`), which stands for an I/O error
  and for the process being killed there: the caller gets `Err(Io)` and the disk
  keeps exactly what was issued before. Holding the store is holding the
  instance lock.
 */
module Stores {
  import opened Layout
  import opened Journal
  import opened StoreModel
  import opened StoreWrites
  import opened Disks
  import opened Garbage
  import opened Instances
  import opened CrashTheorems
  import opened RunDisks

  datatype Error =
    | Io
    | NoState
    | AlreadyExists
    | NotStopped
    | WrongPhase
    | NoRootfs
    | BadGeneration(id: GenerationId)
    | NoSavedState
    | NoSuchCheckpoint
    | EditFailed
    | CrashedWithUnsavedState(run: RunId)

  /** The three ways a recovery can succeed. */
  datatype Recovery = Clean | RolledForward(id: GenerationId) | DiscardedIdleRun(run: RunId)

  datatype Outcome<+T> = Ok(value: T) | Err(error: Error)

  function Listing(fs: Fs, g: GenerationId): set<Name> {
    set l | l in fs.Keys && l.GenName? && l.gen == g && fs[l] == Present :: l.name
  }

  lemma ListingIs(fs: Fs, g: GenerationId, files: Files)
    requires ChildrenAre(fs, g, files)
    ensures Listing(fs, g) == files.Keys
  {
    forall n ensures n in Listing(fs, g) <==> n in files.Keys {
      assert ChildIs(fs, g, n, files);
      if n in files { assert GenName(g, n) in fs.Keys; }
    }
  }

  /** What a directory holds. */
  function Children(fs: Fs, g: GenerationId): Files {
    map n | n in Listing(fs, g) && Get(fs, GenFile(g, n)).FileVal? :: Get(fs, GenFile(g, n)).content
  }

  lemma ChildrenIs(fs: Fs, g: GenerationId, files: Files)
    requires ChildrenAre(fs, g, files)
    ensures Children(fs, g) == files
  {
    ListingIs(fs, g, files);
    forall n | n in files ensures Get(fs, GenFile(g, n)) == FileVal(files[n]) {
      assert ChildIs(fs, g, n, files);
    }
  }

  function RunListing(fs: Fs, r: RunId): set<Name> {
    set l | l in fs.Keys && l.RunName? && l.run == r && fs[l] == Present :: l.name
  }

  lemma RunListingIs(fs: Fs, r: RunId, files: Files)
    requires RunChildrenAre(fs, r, files)
    ensures RunListing(fs, r) == files.Keys
  {
    forall n ensures n in RunListing(fs, r) <==> n in files.Keys {
      assert RunChildIs(fs, r, n, files);
      if n in files { assert RunName(r, n) in fs.Keys; }
    }
  }

  /** Added one at a time in any order, `todo` last. */
  ghost predicate Filled(files: Files, src: Files, todo: set<Name>, sofar: Files) {
    && todo <= src.Keys
    && sofar == map n | n in files.Keys + (src.Keys - todo) :: if n in src && n !in todo then src[n] else files[n]
  }

  lemma FilledStart(files: Files, src: Files)
    ensures Filled(files, src, src.Keys, files)
  {
  }

  lemma FilledDone(files: Files, src: Files, sofar: Files)
    requires Filled(files, src, {}, sofar)
    ensures sofar == files + src
  {
  }

  lemma FilledStep(files: Files, src: Files, todo: set<Name>, sofar: Files, n: Name)
    requires Filled(files, src, todo, sofar) && n in todo
    ensures Filled(files, src, todo - {n}, sofar[n := src[n]])
    ensures n !in files ==> n !in sofar
  {
  }

  /** `found` is the newest final snapshot of `run` with an id below `bound`. */
  ghost predicate NewestFinal(d: Disk, run: RunId, found: Option<GenerationId>, bound: GenerationId) {
    && (found.None? ==> forall g: nat :: g < bound ==> !IsFinal(d, run, g))
    && (found.Some? ==>
          && found.value < bound && IsFinal(d, run, found.value)
          && forall g :: found.value < g < bound ==> !IsFinal(d, run, g))
  }

  lemma NoFinalBelow(d: Disk, run: RunId)
    ensures NewestFinal(d, run, None, 0)
  {
  }

  lemma NewestFinalStep(d: Disk, run: RunId, found: Option<GenerationId>, g: GenerationId)
    requires NewestFinal(d, run, found, g)
    ensures NewestFinal(d, run, if IsFinal(d, run, g) then Some(g) else found, g + 1)
  {
  }

  lemma FinalIsRead(d: Disk, run: RunId, g: GenerationId)
    requires Valid(d)
    ensures IsFinal(d, run, g) <==> ReadGeneration(d.view, g).Ok? && ReadGeneration(d.view, g).value.origin == Snapshot(run)
  {
    hide Valid, CrashSafe, ReadGeneration;
    ReadGenerationIs(d, g);
  }

  lemma NewestOfAll(d: Disk, run: RunId, found: Option<GenerationId>)
    requires CrashSafe(d) && NewestFinal(d, run, found, d.ledger.nextGen)
    ensures found.None? ==> forall g :: !IsFinal(d, run, g)
    ensures found.Some? ==> IsFinal(d, run, found.value) && forall g :: g > found.value ==> !IsFinal(d, run, g)
  {
    ViewIsGood(d);
    forall g | d.ledger.nextGen <= g ensures !IsFinal(d, run, g) { assert GenFresh(d.view, g); }
  }

  /** What recovery may have done: an interrupted run is rolled forward to its
      final snapshot, or dropped if it never served a command. */
  ghost predicate Recovered(a: Disk, b: Disk, how: Recovery) {
    && RecordOf(a.view).Some? && RecordOf(b.view).Some?
    && RecordOf(b.view).value.phase == Stopped
    && var was := RecordOf(a.view).value;
       match how
       case Clean => was.phase == Stopped && RecordOf(b.view) == RecordOf(a.view) && State(b) == State(a)
       case RolledForward(g) =>
         && was.phase.Run().Some? && IsFinal(a, was.phase.Run().value, g)
         && (forall h :: h > g ==> !IsFinal(a, was.phase.Run().value, h))
         && RecordOf(b.view).value.latest == Some(g)
         && State(b) == Some(Abs(a).(current := Some(PublishedPayload(a.ledger, g)), open := None))
       case DiscardedIdleRun(r) =>
         && was.phase == Running(r) && (forall g :: !IsFinal(a, r, g))
         && RecordOf(b.view).value.latest == was.latest
         && State(b) == Some(Abs(a).(open := None))
  }

  lemma RecoveredClean(a: Disk, b: Disk)
    requires RecordOf(a.view).Some? && RecordOf(a.view).value.phase == Stopped
    requires RecordOf(b.view) == RecordOf(a.view) && State(b) == State(a)
    ensures Recovered(a, b, Clean)
  {
    hide State;
  }

  lemma RecoveredForward(a: Disk, b: Disk, run: RunId, g: GenerationId)
    requires RecordOf(a.view).Some? && RecordOf(a.view).value.phase.Run() == Some(run) && IsFinal(a, run, g)
    requires forall h :: h > g ==> !IsFinal(a, run, h)
    ensures State(b) == Some(StateWith(a, Record(Some(g), Stopped))) && RecordOf(b.view) == Some(Record(Some(g), Stopped))
            ==> Recovered(a, b, RolledForward(g))
  {
    hide IsFinal, Checkpoints;
  }

  lemma RecoveredIdle(a: Disk, b: Disk, run: RunId)
    requires RecordOf(a.view).Some? && RecordOf(a.view).value.phase == Running(run)
    requires forall h :: !IsFinal(a, run, h)
    ensures var rec := Record(RecordOf(a.view).value.latest, Stopped);
            State(b) == Some(StateWith(a, rec)) && RecordOf(b.view) == Some(rec) ==> Recovered(a, b, DiscardedIdleRun(run))
  {
    hide IsFinal, Checkpoints;
  }

  lemma MayCommitStopped(d: Disk, rec: Record, run: RunId)
    requires rec.phase == Stopped && rec.latest.Some? && IsFinal(d, run, rec.latest.value)
    ensures MayCommit(d, rec)
  {
  }

  /** A generation in place may become latest, with no run or the phase as it is. */
  lemma MayCommitInPlace(d: Disk, rec: Record)
    requires rec.latest.Some? ==> IsInPlace(d.view, rec.latest.value)
    requires rec.phase == Stopped || (RecordOf(d.view).Some? && rec.phase == RecordOf(d.view).value.phase)
    ensures MayCommit(d, rec)
  {
  }

  /** `latest` may stay what it is, with no run or the run already named. */
  lemma MayCommitLatest(d: Disk, rec: Record)
    requires CrashSafe(d) && RecordOf(d.view).Some? && rec.latest == RecordOf(d.view).value.latest
    requires rec.phase.Run().None? || rec.phase.Run() == RecordOf(d.view).value.phase.Run()
    ensures MayCommit(d, rec)
  {
    hide CrashSafe;
    if rec.latest.Some? { NamedIsInPlace(d, rec.latest.value); }
  }

  /** Committing `rec` either took effect or changed nothing the user sees; it
      took effect if it succeeded. */
  ghost predicate CommitOutcome(a: Disk, b: Disk, rec: Record, ok: bool) {
    || (State(b) == Some(StateWith(a, rec)) && RecordOf(b.view) == Some(rec))
    || (!ok && State(b) == State(a) && RecordOf(b.view) == RecordOf(a.view)
        && Only(InRecord, a.view, b.view) && a.ledger.published == b.ledger.published && SameFinals(a, b))
  }

  lemma UnpublishedNotInPlace(d: Disk, g: GenerationId)
    requires Valid(d) && g !in d.ledger.published
    ensures !IsInPlace(d.view, g)
  {
    assert IsInPlace(d.view, g) ==> Complete(d.view, d.ledger, g);
  }

  /** Edits a user makes to a staging directory. */
  datatype Edit = PutFile(name: Name, content: Content) | RemoveFile(name: Name)

  function AfterEdits(files: Files, edits: seq<Edit>): Files {
    if edits == [] then files
    else
      var before := AfterEdits(files, edits[..|edits| - 1]);
      match edits[|edits| - 1]
      case PutFile(n, c) => before[n := c]
      case RemoveFile(n) => before - {n}
  }

  lemma EditedStep(files: Files, edits: seq<Edit>, k: nat)
    requires k < |edits|
    ensures AfterEdits(files, edits[..k + 1]) ==
            match edits[k]
            case PutFile(n, c) => AfterEdits(files, edits[..k])[n := c]
            case RemoveFile(n) => AfterEdits(files, edits[..k]) - {n}
  {
    assert edits[..k + 1][..k] == edits[..k];
  }

  lemma LatestIsInPlace(d: Disk)
    requires CrashSafe(d) && RecordOf(d.view).Some? && RecordOf(d.view).value.latest.Some?
    ensures IsInPlace(d.view, RecordOf(d.view).value.latest.value)
  {
    NamedIsInPlace(d, RecordOf(d.view).value.latest.value);
  }

  /** A stopped instance whose saved state is now `files`. */
  ghost predicate SavedAs(a: Disk, b: Disk, files: Files) {
    && RecordOf(a.view).Some?
    && RecordOf(b.view).Some? && RecordOf(b.view).value.phase == Stopped
    && State(b) == Some(Abs(a).(current := Some(files), open := None))
  }

  /** A generation published from `files` and then committed is the saved state. */
  lemma SavedNew(a: Disk, b: Disk, c: Disk, parent: Option<GenerationId>, origin: Origin, files: Files, ok: bool)
    requires CrashSafe(a) && RecordOf(a.view).Some? && NewGenerationOf(a, b, parent, origin, files)
    requires IsInPlace(b.view, a.ledger.nextGen) && Later(a, b) && Later(b, c)
    requires CommitOutcome(b, c, Record(Some(a.ledger.nextGen), Stopped), ok)
    requires !origin.Snapshot?
    ensures SavedAs(a, c, Payload(files)) || (!ok && State(c) == State(a) && RecordOf(c.view) == RecordOf(a.view) && SameFinals(a, c))
    ensures ok ==> SavedAs(a, c, Payload(files))
  {
    hide CrashSafe, Payload, PublishedFiles, SameRefs, SameFinals, Checkpoints, FewerFinals, OtherRefsSame;
    PublishKeepsPayload(a.ledger.nextGen, parent, origin, files);
    Then(a, b, c);
    assert State(b) == State(a);
    assert Checkpoints(b) == Checkpoints(a);
  }

  lemma DiskOnlyPayload(files: Files)
    requires ROOTFS in ManifestFiles(DiskOnly(files))
    ensures Payload(DiskOnly(files)) == DiskOnly(files)
    ensures VMSTATE !in DiskOnly(files) && PAGES !in DiskOnly(files)
  {
  }

  lemma NoRecordNoState(d: Disk)
    ensures RecordOf(d.view).None? ==> State(d) == None
  {
  }

  /** What a run from `from`, or else from the saved state, is given. */
  function BaseFiles(d: Disk, from: Option<GenerationId>): Files
    requires RecordOf(d.view).Some?
  {
    if from.Some? then PublishedPayload(d.ledger, from.value)
    else if RecordOf(d.view).value.latest.Some? then PublishedPayload(d.ledger, RecordOf(d.view).value.latest.value)
    else map[]
  }

  /** The guest writes in a set of files with a disk image. */
  function FilesImage(files: Files): seq<nat> {
    if ROOTFS in files then DiskImage(FileVal(files[ROOTFS])) else []
  }

  lemma FreshImage(d: Disk)
    requires CrashSafe(d)
    ensures ImageOn(d.view, d.ledger.nextRun) == []
  {
    hide CrashSafe, Grows;
    NextIsFresh(d);
  }

  /** A run is open on a private copy; the saved state is as it was. */
  ghost predicate Began(a: Disk, b: Disk, from: Option<GenerationId>, run: RunId) {
    && RecordOf(a.view).Some? && RecordOf(b.view) == Some(Record(RecordOf(a.view).value.latest, Running(run)))
    && State(b) == Some(Abs(a).(open := Some(OpenRun(run, false, BaseFiles(a, from)))))
    && run == a.ledger.nextRun
  }

  /** What the new run is given: every file its base lists and the share state, as published. */
  ghost predicate RunsOn(a: Disk, b: Disk, from: Option<GenerationId>) {
    && RecordOf(a.view).Some? && State(b).Some? && State(b).value.open.Some?
    && var base, given := if from.Some? then from else RecordOf(a.view).value.latest, State(b).value.open.value.files;
       if base.Some? then base.value in a.ledger.published && CopiesListed(given, a.ledger.published[base.value])
       else given == map[]
  }

  lemma BeganMeans(a: Disk, b: Disk, from: Option<GenerationId>, run: RunId)
    requires Valid(a) && Began(a, b, from, run) && (from.Some? ==> IsInPlace(a.view, from.value))
    ensures RunsOn(a, b, from)
  {
    var base := if from.Some? then from else RecordOf(a.view).value.latest;
    if base.Some? {
      if from.None? { LatestIsInPlace(a); }
      assert Complete(a.view, a.ledger, base.value);
      hide RecordOf, Checkpoints, Payload, CopiesListed, CrashSafe, WellFormed;
      PayloadCopiesListed(base.value, a.ledger.published[base.value]);
    }
  }

  /** Preparing a run that nothing names yet changes nothing the user sees. */
  lemma PreparedState(a: Disk, b: Disk)
    requires CrashSafe(a) && Later(a, b) && Only(InRun(a.ledger.nextRun), a.view, b.view)
    ensures State(b) == State(a) && RecordOf(b.view) == RecordOf(a.view) && SameRefs(a.view, b.view)
    ensures forall g :: IsInPlace(a.view, g) == IsInPlace(b.view, g)
  {
    hide CrashSafe, State, Only, SameRefs, Grows, RecordOf;
    OnlyKeeps(InRun(a.ledger.nextRun), a.view, b.view);
    NextIsFresh(a);
    if RecordOf(a.view).Some? { OpenRunIsPrepared(a); }
    StateKept(a, b);
  }

  lemma MayCommitRun(d: Disk, rec: Record)
    requires CrashSafe(d) && RecordOf(d.view).Some? && rec.latest == RecordOf(d.view).value.latest
    requires rec.phase.Run().Some? && RunComplete(d.view, d.ledger, rec.phase.Run().value)
    requires RunSettled(Pending(d.log), d.journaled, d.ledger, rec.phase.Run().value)
    ensures MayCommit(d, rec)
  {
    hide CrashSafe, Pending;
    if rec.latest.Some? { NamedIsInPlace(d, rec.latest.value); }
  }

  lemma BeganIs(a: Disk, b: Disk, c: Disk, from: Option<GenerationId>, run: RunId, files: Files)
    requires RecordOf(a.view).Some? && run == a.ledger.nextRun && files == BaseFiles(a, from)
    requires RecordOf(b.view) == RecordOf(a.view) && State(b) == State(a)
    requires run in b.ledger.prepared && b.ledger.prepared[run] == files.Keys && RunChildrenAre(b.view, run, files)
    requires var rec := Record(RecordOf(a.view).value.latest, Running(run));
             RecordOf(c.view) == Some(rec) && State(c) == Some(StateWith(b, rec))
    ensures Began(a, c, from, run)
  {
    hide Payload, Checkpoints;
    assert RunFiles(b, run) == files by {
      forall n | n in files ensures Get(b.view, RunFile(run, n)) == FileVal(files[n]) {
        assert RunChildIs(b.view, run, n, files);
      }
    }
    assert Abs(b) == Abs(a);
  }

  /** A prepared run's disk is the copied one, if there is one, and synced. */
  lemma CopiedImage(d: Disk, q: RunId, files: Files)
    requires RunChildrenAre(d.view, q, files) && RunSettled(Pending(d.log), d.journaled, d.ledger, q)
    requires q in d.ledger.prepared && d.ledger.prepared[q] == files.Keys
    requires ImageOn(d.view, q) == [] || ImageOn(d.view, q) == FilesImage(files)
    ensures RunFile(q, ROOTFS) !in Pending(d.log) || ImageOn(d.view, q) == []
    ensures FilesImage(files) == ImageOn(d.view, q)
  {
    hide Pending;
    assert RunChildIs(d.view, q, ROOTFS, files);
  }

  lemma BeganIsRunning(a: Disk, b: Disk, from: Option<GenerationId>, run: RunId)
    requires Began(a, b, from, run)
    ensures RecordOf(a.view).Some? && run == a.ledger.nextRun
    ensures RecordOf(b.view).Some? && RecordOf(b.view).value.phase == Running(run)
  {
  }

  /** `run` is open and has served a command; nothing else changed. */
  ghost predicate Dirtied(a: Disk, b: Disk, run: RunId) {
    && RecordOf(a.view).Some? && RecordOf(a.view).value.phase.Run() == Some(run)
    && RecordOf(b.view) == Some(Record(RecordOf(a.view).value.latest, Dirty(run)))
    && State(b) == Some(Abs(a).(open := Some(Abs(a).open.value.(dirty := true))))
  }

  lemma DirtiedIs(a: Disk, b: Disk, run: RunId)
    requires RecordOf(a.view).Some? && RecordOf(a.view).value.phase == Running(run)
    requires var rec := Record(RecordOf(a.view).value.latest, Dirty(run));
             RecordOf(b.view) == Some(rec) && State(b) == Some(StateWith(a, rec))
    ensures Dirtied(a, b, run)
  {
    hide RecordOf, Checkpoints, RunFiles;
  }

  lemma DirtiedAlready(a: Disk, run: RunId)
    requires RecordOf(a.view).Some? && RecordOf(a.view).value.phase == Dirty(run)
    ensures Dirtied(a, a, run)
  {
    hide RecordOf, Checkpoints, RunFiles;
  }

  ghost predicate Advanced(a: Disk, b: Disk, run: RunId, g: GenerationId) {
    && RecordOf(a.view).Some? && RecordOf(a.view).value.phase.Run() == Some(run)
    && RecordOf(b.view) == Some(Record(Some(g), RecordOf(a.view).value.phase))
    && State(b) == Some(Abs(a).(current := Some(PublishedPayload(a.ledger, g))))
  }

  lemma AdvancedIs(a: Disk, b: Disk, run: RunId, g: GenerationId)
    requires RecordOf(a.view).Some? && RecordOf(a.view).value.phase.Run() == Some(run)
    requires var rec := Record(Some(g), RecordOf(a.view).value.phase);
             RecordOf(b.view) == Some(rec) && State(b) == Some(StateWith(a, rec))
    ensures Advanced(a, b, run, g)
  {
    hide RecordOf, Checkpoints, Open, Payload;
  }

  /** The open run is gone and the saved state is as it was. */
  ghost predicate Closed(a: Disk, b: Disk) {
    && RecordOf(a.view).Some?
    && RecordOf(b.view) == Some(Record(RecordOf(a.view).value.latest, Stopped))
    && State(b) == Some(Abs(a).(open := None))
  }

  lemma ClosedIs(a: Disk, b: Disk)
    requires RecordOf(a.view).Some?
    ensures var rec := Record(RecordOf(a.view).value.latest, Stopped);
            RecordOf(b.view) == Some(rec) && State(b) == Some(StateWith(a, rec)) ==> Closed(a, b)
  {
    hide RecordOf, Checkpoints;
  }

  /** The crashed run's disk, without its memory, is the saved state. */
  ghost predicate Salvaged(a: Disk, b: Disk) {
    && RecordOf(a.view).Some? && RecordOf(a.view).value.phase.Dirty?
    && SavedAs(a, b, DiskOnly(Abs(a).open.value.files))
  }

  lemma SalvagedIs(a: Disk, b: Disk, run: RunId)
    requires RecordOf(a.view).Some? && RecordOf(a.view).value.phase == Dirty(run)
    requires var files := DiskOnly(RunFiles(a, run)); ROOTFS in files && files[ROOTFS].Data?
    ensures SavedAs(a, b, Payload(DiskOnly(RunFiles(a, run)))) ==> Salvaged(a, b)
  {
    hide RecordOf, SavedAs, RunFiles, DiskOnly, Payload, Checkpoints;
    RootfsListed(DiskOnly(RunFiles(a, run)));
    DiskOnlyPayload(RunFiles(a, run));
  }

  /** What salvaging saves: the disk and the share state of the run, and nothing else. */
  lemma SalvagedMeans(a: Disk, b: Disk)
    requires Salvaged(a, b) && HasRootfs(RunFiles(a, RecordOf(a.view).value.phase.run))
    ensures State(a).Some? && State(a).value.open.Some? && State(b).Some? && State(b).value.current.Some?
    ensures IsDiskOf(State(b).value.current.value, State(a).value.open.value.files)
  {
    hide RecordOf, RunFiles, DiskOnly, Checkpoints, IsDiskOf;
    DiskOnlyIs(RunFiles(a, RecordOf(a.view).value.phase.run));
  }

  predicate HasRootfs(files: Files) { ROOTFS in files && files[ROOTFS].Data? }

  lemma DiskOnlyRootfs(files: Files)
    ensures HasRootfs(DiskOnly(files)) <==> HasRootfs(files)
  {
  }

  lemma RootfsListed(files: Files)
    requires HasRootfs(files)
    ensures ROOTFS in ManifestFiles(files)
  {
  }

  predicate HasMemory(d: Disk) {
    && State(d).Some? && State(d).value.current.Some?
    && VMSTATE in State(d).value.current.value && State(d).value.current.value[VMSTATE].Data?
    && PAGES in State(d).value.current.value && State(d).value.current.value[PAGES].Data?
  }

  lemma NoLatestNoMemory(d: Disk)
    requires RecordOf(d.view).Some? && RecordOf(d.view).value.latest.None?
    ensures !HasMemory(d)
  {
  }

  /** The saved state is the same disk without memory. */
  ghost predicate MemoryDropped(a: Disk, b: Disk) {
    && RecordOf(a.view).Some? && Abs(a).current.Some?
    && SavedAs(a, b, DiskOnly(Abs(a).current.value)) && !HasMemory(b)
  }

  lemma LatestMemory(d: Disk, latest: GenerationId)
    requires RecordOf(d.view).Some? && RecordOf(d.view).value.latest == Some(latest)
    requires latest in d.ledger.published && WellFormed(latest, d.ledger.published[latest])
    ensures d.ledger.published[latest][MANIFEST].manifest.HasMemory() <==> HasMemory(d)
    ensures ROOTFS in ManifestFiles(DiskOnly(d.ledger.published[latest]))
  {
    hide RecordOf, Checkpoints;
  }

  lemma DiskOnlyOfPayload(files: Files)
    requires ROOTFS in ManifestFiles(DiskOnly(files))
    ensures DiskOnly(Payload(files)) == DiskOnly(files)
  {
  }

  lemma MemoryDroppedIs(a: Disk, b: Disk, latest: GenerationId)
    requires RecordOf(a.view).Some? && RecordOf(a.view).value.latest == Some(latest) && latest in a.ledger.published
    requires ROOTFS in ManifestFiles(DiskOnly(a.ledger.published[latest]))
    ensures SavedAs(a, b, Payload(DiskOnly(a.ledger.published[latest]))) ==> MemoryDropped(a, b)
  {
    hide RecordOf, Payload, DiskOnly, Checkpoints, ManifestFiles;
    var files := a.ledger.published[latest];
    DiskOnlyPayload(files);
    DiskOnlyOfPayload(files);
  }

  /** What is left of a saved state without its memory: the disk and the share state. */
  lemma DroppedMeans(a: Disk, b: Disk, latest: GenerationId)
    requires MemoryDropped(a, b) && RecordOf(a.view).value.latest == Some(latest)
    requires latest in a.ledger.published && ROOTFS in ManifestFiles(DiskOnly(a.ledger.published[latest]))
    ensures State(a).Some? && State(a).value.current.Some? && State(b).Some? && State(b).value.current.Some?
    ensures IsDiskOf(State(b).value.current.value, State(a).value.current.value)
  {
    hide RecordOf, DiskOnly, Checkpoints, IsDiskOf, Payload, ManifestFiles;
    RootfsInPayload(a.ledger.published[latest]);
    DiskOnlyIs(Payload(a.ledger.published[latest]));
  }

  lemma RootfsInPayload(files: Files)
    requires ROOTFS in ManifestFiles(DiskOnly(files))
    ensures ROOTFS in Payload(files)
  {
  }

  /** Beside its manifest and its pin, `files` has the regular files of `source` and its share
      state, each with its content. */
  ghost predicate Imported(files: Files, source: Files) {
    forall n :: n != MANIFEST && n != PIN ==>
      && (n in files <==> n in source && (source[n].Data? || n == HOST_SHARE_STATE))
      && (n in files ==> files[n] == source[n])
  }

  lemma PayloadIsImported(g: GenerationId, parent: Option<GenerationId>, origin: Origin, source: Files)
    ensures Imported(PublishedFiles(g, parent, origin, Payload(source)), source)
  {
  }

  /** The saved state is an edited copy of itself. */
  ghost predicate Derived(a: Disk, b: Disk, edits: seq<Edit>) {
    && RecordOf(a.view).Some? && Abs(a).current.Some?
    && SavedAs(a, b, Payload(AfterEdits(Abs(a).current.value, edits)))
  }

  lemma DerivedIs(a: Disk, b: Disk, edits: seq<Edit>, latest: GenerationId)
    requires RecordOf(a.view).Some? && RecordOf(a.view).value.latest == Some(latest) && latest in a.ledger.published
    ensures SavedAs(a, b, Payload(AfterEdits(Payload(a.ledger.published[latest]), edits))) ==> Derived(a, b, edits)
  {
    hide RecordOf, SavedAs, Payload, AfterEdits, Checkpoints;
  }

  lemma EditedNone(files: Files, edits: seq<Edit>)
    ensures AfterEdits(files, edits[..0]) == files
  {
  }

  lemma StagingKeepsFinals(a: Disk, b: Disk, g: GenerationId)
    requires Valid(a) && Valid(b) && g !in b.ledger.published && a.ledger.published == b.ledger.published
    requires forall h :: h != g ==> IsInPlace(a.view, h) == IsInPlace(b.view, h)
    ensures SameFinals(a, b)
  {
    hide Valid, CrashSafe;
    UnpublishedNotInPlace(a, g);
    UnpublishedNotInPlace(b, g);
  }

  lemma PreparingAddsNoFinals(a: Disk, b: Disk)
    requires a.ledger.published == b.ledger.published
    requires forall g :: IsInPlace(a.view, g) == IsInPlace(b.view, g)
    ensures FewerFinals(a, b)
  {
  }

  lemma NewGenerationKeeps(a: Disk, b: Disk, parent: Option<GenerationId>, origin: Origin, files: Files)
    requires NewGenerationOf(a, b, parent, origin, files)
    ensures State(b) == State(a) && RecordOf(b.view) == RecordOf(a.view) && SameRefs(a.view, b.view)
    ensures !origin.Snapshot? ==> SameFinals(a, b)
  {
  }

  /** One checkpoint more, naming what its generation holds. */
  ghost predicate Checkpointed(a: Disk, b: Disk, ref: CheckpointRef) {
    State(b) ==
      if RecordOf(a.view).None? then None
      else Some(Abs(a).(checkpoints := Abs(a).checkpoints[
        ref.id := SavedState(ref.name, PublishedPayload(a.ledger, ref.generation))]))
  }

  lemma CheckpointsChanged(a: Disk, b: Disk, c: CheckpointId)
    requires CrashSafe(a) && Grows(a.ledger, b.ledger) && OtherRefsSame(a.view, b.view, c)
    requires RefOf(b.view, c).Some? ==> RefOf(b.view, c).value.generation in a.ledger.published
    ensures Checkpoints(b) ==
            if RefOf(b.view, c).None? then Checkpoints(a) - {c}
            else Checkpoints(a)[c := SavedState(RefOf(b.view, c).value.name,
                                                PublishedPayload(a.ledger, RefOf(b.view, c).value.generation))]
  {
    hide CrashSafe, RefOf, Payload, Grows;
    RefIdsAre(a.view);
    RefIdsAre(b.view);
    forall e | e != c && RefOf(a.view, e).Some? ensures e in Checkpoints(b) && Checkpoints(b)[e] == Checkpoints(a)[e] {
      RefIsPublished(a, e);
      PayloadKept(a.ledger, b.ledger, RefOf(a.view, e).value.generation);
    }
    if RefOf(b.view, c).Some? {
      PayloadKept(a.ledger, b.ledger, RefOf(b.view, c).value.generation);
    }
  }

  lemma PayloadKept(a: Ledger, b: Ledger, g: GenerationId)
    requires Grows(a, b) && g in a.published
    ensures PublishedPayload(a, g) == PublishedPayload(b, g) && OriginOf(a, g) == OriginOf(b, g)
  {
  }

  lemma CheckpointedIs(a: Disk, b: Disk, ref: CheckpointRef)
    requires Valid(a) && Later(a, b) && IsInPlace(a.view, ref.generation)
    requires Only(InRefs, a.view, b.view) && OtherRefsSame(a.view, b.view, ref.id)
    ensures RefOf(b.view, ref.id) == Some(ref) ==> Checkpointed(a, b, ref)
    ensures RefOf(b.view, ref.id) == RefOf(a.view, ref.id) ==> State(b) == State(a)
  {
    hide CrashSafe, Settled, Only, RefOf, RecordOf, Checkpoints, Open, Current, SameRun, Grows;
    OnlyKeeps(InRefs, a.view, b.view);
    assert Complete(a.view, a.ledger, ref.generation);
    if RefOf(b.view, ref.id) == Some(ref) {
      CheckpointsChanged(a, b, ref.id);
    }
    if RecordOf(a.view).Some? {
      CurrentKept(a, b);
      OpenKept(a, b);
    }
    if RefOf(b.view, ref.id) == RefOf(a.view, ref.id) {
      RefsAllSame(a.view, b.view, ref.id);
      StateKept(a, b);
    }
  }

  lemma RefsAllSame(a: Fs, b: Fs, c: CheckpointId)
    requires OtherRefsSame(a, b, c) && RefOf(a, c) == RefOf(b, c)
    ensures SameRefs(a, b)
  {
  }

  /** One checkpoint fewer. */
  ghost predicate Forgotten(a: Disk, b: Disk, c: CheckpointId) {
    State(b) ==
      if RecordOf(a.view).None? then None
      else Some(Abs(a).(checkpoints := Abs(a).checkpoints - {c}))
  }

  lemma ForgottenIs(a: Disk, b: Disk, c: CheckpointId)
    requires Valid(a) && Later(a, b)
    requires Only(InRefs, a.view, b.view) && OtherRefsSame(a.view, b.view, c)
    ensures RefOf(b.view, c) == None ==> Forgotten(a, b, c)
    ensures RefOf(b.view, c) == RefOf(a.view, c) ==> State(b) == State(a)
  {
    hide CrashSafe, Settled, InPlaceComplete, Only, RefOf, RecordOf, Checkpoints, Open, Current, SameRun, Grows;
    OnlyKeeps(InRefs, a.view, b.view);
    if RefOf(b.view, c) == None {
      CheckpointsChanged(a, b, c);
    }
    if RecordOf(a.view).Some? {
      CurrentKept(a, b);
      OpenKept(a, b);
    }
    if RefOf(b.view, c) == RefOf(a.view, c) {
      RefsAllSame(a.view, b.view, c);
      StateKept(a, b);
    }
  }

  lemma ForgottenThen(a: Disk, b: Disk, c: Disk, id: CheckpointId)
    requires Forgotten(a, b, id) && State(c) == State(b)
    ensures Forgotten(a, c, id)
  {
  }

  lemma OtherRefsThen(a: Fs, b: Fs, e: Fs, c: CheckpointId)
    requires OtherRefsSame(a, b, c) && SameRefs(b, e)
    ensures OtherRefsSame(a, e, c) && RefOf(e, c) == RefOf(b, c)
  {
    forall x | x != c ensures RefOf(a, x) == RefOf(e, x) { assert RefOf(b, x) == RefOf(e, x); }
  }

  /** The open run's disk holds one more write. */
  ghost predicate Wrote(a: Disk, b: Disk, run: RunId, w: nat) {
    && RecordOf(a.view).Some? && RecordOf(a.view).value.phase.Run() == Some(run)
    && ROOTFS in Abs(a).open.value.files && Abs(a).open.value.files[ROOTFS].Data?
    && var open := Abs(a).open.value;
       State(b) == Some(Abs(a).(open := Some(open.(files :=
         open.files[ROOTFS := Data(open.files[ROOTFS].writes + [w])]))))
  }

  lemma WroteIs(a: Disk, b: Disk, run: RunId, w: nat)
    requires CrashSafe(a) && RecordOf(a.view).Some? && RecordOf(a.view).value.phase.Run() == Some(run)
    requires run in a.ledger.prepared && ROOTFS in a.ledger.prepared[run]
    requires Get(a.view, RunFile(run, ROOTFS)).FileVal? && Get(a.view, RunFile(run, ROOTFS)).content.Data?
    requires b.ledger == a.ledger
    requires b.view == a.view[RunFile(run, ROOTFS) := FileVal(Data(Get(a.view, RunFile(run, ROOTFS)).content.writes + [w]))]
    ensures Wrote(a, b, run, w) && SameFinals(a, b)
    ensures RecordOf(b.view) == RecordOf(a.view) && SameRefs(a.view, b.view)
  {
    hide CrashSafe, Checkpoints, Grows, Current;
    assert SameRefs(a.view, b.view);
    GrowsSelf(a.ledger);
    CheckpointsKept(a, b);
    var content := Data(Get(a.view, RunFile(run, ROOTFS)).content.writes + [w]);
    assert RunFiles(b, run) == RunFiles(a, run)[ROOTFS := content];
  }

  lemma NextNotInPlace(d: Disk)
    requires CrashSafe(d)
    ensures !IsInPlace(d.view, d.ledger.nextGen) && d.ledger.nextGen !in d.ledger.published
  {
    NextIsFresh(d);
  }

  lemma OpenFiles(d: Disk, run: RunId)
    requires RecordOf(d.view).Some? && RecordOf(d.view).value.phase == Dirty(run)
    ensures Abs(d).open == Some(OpenRun(run, true, RunFiles(d, run)))
  {
  }

  lemma CurrentFiles(d: Disk, latest: GenerationId)
    requires RecordOf(d.view).Some? && RecordOf(d.view).value.latest == Some(latest) && latest in d.ledger.published
    ensures Abs(d).current == Some(Payload(d.ledger.published[latest]))
  {
  }

  /** Whatever was published is no final snapshot and holds what a copy of `files` would. */
  ghost predicate OnlyAdds(a: Ledger, b: Ledger, files: Files) {
    forall g :: g in b.published && g !in a.published ==>
      !OriginOf(b, g).Snapshot? && Payload(b.published[g]) == Payload(files)
  }

  lemma AddsNothing(a: Ledger, b: Ledger)
    requires a.published == b.published
    ensures forall files :: OnlyAdds(a, b, files)
  {
  }

  lemma AddsImage(a: Ledger, b: Ledger, c: Ledger, g: GenerationId, files: Files)
    requires b.published == a.published || b.published == a.published[g := PublishedFiles(g, None, Image, files)]
    requires c.published == b.published
    ensures OnlyAdds(a, c, files)
  {
    hide Payload;
    PublishKeepsPayload(g, None, Image, files);
  }

  lemma AddsOne(a: Disk, b: Disk, c: Disk, parent: Option<GenerationId>, origin: Origin, files: Files)
    requires NewGenerationOf(a, b, parent, origin, files) && !origin.Snapshot?
    requires b.ledger.published == c.ledger.published
    ensures OnlyAdds(a.ledger, c.ledger, files)
  {
    hide Payload, State, SameRefs, SameFinals;
    PublishKeepsPayload(a.ledger.nextGen, parent, origin, files);
  }

  lemma RecordedNew(a: Disk, b: Disk, parent: Option<GenerationId>, origin: Origin, files: Files)
    requires NewGenerationOf(a, b, parent, origin, files) && IsInPlace(b.view, a.ledger.nextGen)
    ensures RecordedAs(b.ledger, a.ledger.nextGen, parent, origin)
  {
    hide State, SameRefs, SameFinals;
  }

  lemma RecordedPublished(a: Ledger, g: GenerationId, parent: Option<GenerationId>, origin: Origin, files: Files)
    ensures g in a.published && a.published[g] == PublishedFiles(g, parent, origin, files) ==> RecordedAs(a, g, parent, origin)
  {
  }

  lemma RecordedStays(a: Ledger, b: Ledger, g: GenerationId, parent: Option<GenerationId>, origin: Origin)
    requires RecordedAs(a, g, parent, origin) && a.published == b.published
    ensures RecordedAs(b, g, parent, origin)
  {
  }

  lemma CommittedRecord(a: Disk, b: Disk, rec: Record)
    requires CommitOutcome(a, b, rec, true)
    ensures RecordOf(b.view) == Some(rec)
  {
  }

  /** What happened to an attempt to write and publish a new generation. */
  ghost predicate NewGenerationOf(a: Disk, b: Disk, parent: Option<GenerationId>, origin: Origin, files: Files) {
    var g := a.ledger.nextGen;
    && State(b) == State(a) && RecordOf(b.view) == RecordOf(a.view) && SameRefs(a.view, b.view)
    && b.ledger.prepared == a.ledger.prepared
    && (forall h :: h != g ==> IsInPlace(a.view, h) == IsInPlace(b.view, h))
    && b.ledger.published == (if IsInPlace(b.view, g)
                              then a.ledger.published[g := PublishedFiles(g, parent, origin, files)]
                              else a.ledger.published)
    && (!origin.Snapshot? ==> SameFinals(a, b))
  }

  lemma NewGenerationIs(a: Disk, b: Disk, parent: Option<GenerationId>, origin: Origin, files: Files)
    requires Valid(a) && Later(a, b) && Only(InGen(a.ledger.nextGen), a.view, b.view)
    requires b.ledger.prepared == a.ledger.prepared
    requires var g := a.ledger.nextGen;
             b.ledger.published == (if IsInPlace(b.view, g)
                                    then a.ledger.published[g := PublishedFiles(g, parent, origin, files)]
                                    else a.ledger.published)
    ensures NewGenerationOf(a, b, parent, origin, files)
  {
    hide Valid, CrashSafe, State, SameRefs, Only, SameFinals;
    var g := a.ledger.nextGen;
    StagedState(a, b, g);
    NextNotInPlace(a);
    if !origin.Snapshot? { FinalsKept(a, b, g); }
  }

  predicate FileMatches(fs: Fs, g: GenerationId, n: Name, size: nat) {
    && Get(fs, GenName(g, n)) == Present
    && Get(fs, GenFile(g, n)).FileVal?
    && Get(fs, GenFile(g, n)).content.Data?
    && Size(Get(fs, GenFile(g, n)).content) == size
  }

  /** The manifest of `g`, unless the directory is not in place or does not bear its
      manifest out: a listed file missing or of another size (src/store.rs:478-505). */
  function ReadGeneration(fs: Fs, g: GenerationId): Outcome<Manifest> {
    var doc := Get(fs, GenFile(g, MANIFEST));
    if !IsInPlace(fs, g) || Get(fs, GenName(g, MANIFEST)) != Present || !doc.FileVal? || !doc.content.ManifestDoc? then
      Err(BadGeneration(g))
    else
      var m := doc.content.manifest;
      if m.id != g || (exists n :: n in m.files && !FileMatches(fs, g, n, m.files[n])) || ROOTFS !in m.files then
        Err(BadGeneration(g))
      else Ok(m)
  }

  /** On a valid store the check accepts exactly the generations in place, and
      they hold exactly what they were published with. */
  lemma ReadGenerationIs(d: Disk, g: GenerationId)
    requires Valid(d)
    ensures IsInPlace(d.view, g) ==>
              && g in d.ledger.published && WellFormed(g, d.ledger.published[g])
              && ReadGeneration(d.view, g) == Ok(d.ledger.published[g][MANIFEST].manifest)
              && ChildrenAre(d.view, g, d.ledger.published[g])
    ensures !IsInPlace(d.view, g) ==> ReadGeneration(d.view, g) == Err(BadGeneration(g))
  {
    hide CrashSafe, Settled;
    if IsInPlace(d.view, g) {
      assert Complete(d.view, d.ledger, g);
      var files := d.ledger.published[g];
      var m := files[MANIFEST].manifest;
      assert ChildIs(d.view, g, MANIFEST, files);
      forall n | n in m.files ensures FileMatches(d.view, g, n, m.files[n]) {
        assert ChildIs(d.view, g, n, files);
      }
    }
  }

  class Store {
    const faulty: nat -> bool
    var ticks: nat
    var disk: Disk

    /** Some write or sync may fail. */
    ghost predicate Fallible() { exists k :: faulty(k) }

    /** An instance directory with nothing in it. */
    constructor (journaled: bool, faulty: nat -> bool)
      ensures Valid(disk)
      ensures disk == Disk(journaled, map[], map[], [], Ledger(map[], map[], map[], map[], 0, 0, 0))
      ensures this.faulty == faulty
    {
      this.faulty := faulty;
      ticks := 0;
      disk := Disk(journaled, map[], map[], [], Ledger(map[], map[], map[], map[], 0, 0, 0));
      new;
      assert CrashSafe(disk) by {
        forall fs | CrashState(disk.base, disk.log, disk.journaled, fs) ensures Good(fs, disk.ledger, disk.journaled) {
          var keep: set<nat> :| Allowed(disk.log, keep, disk.journaled) && fs == Survive(disk.base, disk.log, keep);
        }
      }
    }

    // ---------------------------------------------------------------- primitives

    /** Issues one write. */
    method Write(l: Loc, v: Val, next: Ledger) returns (r: Outcome<()>)
      modifies this
      ensures r.Ok? ==> disk == Written(old(disk), l, v, next)
      ensures r.Err? ==> r == Err(Io) && disk == old(disk)
      ensures r == Err(Io) ==> Fallible()
      ensures CommitCount(disk.log) == CommitCount(old(disk).log) + if r.Ok? && IsEntry(l) then 1 else 0
      ensures !l.RunFile? ==> Images(disk.view) == Images(old(disk).view)
      ensures l.RunFile? ==> Images(disk.view) - {l.run} == Images(old(disk).view) - {l.run}
      ensures forall q :: l != RunFile(q, ROOTFS) ==> ImageOn(disk.view, q) == ImageOn(old(disk).view, q)
      ensures !IsCommitLoc(l) ==> Unsynced(disk.log) == Unsynced(old(disk).log)
      ensures l != HomeEntry && NeverHome(old(disk)) ==> NeverHome(disk)
    {
      hide NeverHome, Images, Unsynced, CommitCount;
      ticks := ticks + 1;
      if faulty(ticks) {
        return Err(Io);
      }
      CommitCountMore(disk.log, Put(l, v));
      WriteKeepsImages(disk.view, l, v);
      UnsyncedMore(disk.log, Put(l, v));
      if NeverHome(disk) { StillNotHome(disk, l, v, next, InstanceDir); }
      disk := Written(disk, l, v, next);
      r := Ok(());
    }

    /** `sync_file` or `sync_dir` (src/store.rs:125-138). */
    method SyncOne(o: Obj) returns (r: Outcome<()>)
      modifies this
      ensures r.Ok? ==> disk == SyncedOn(old(disk), o)
      ensures r.Err? ==> r == Err(Io) && disk == old(disk)
      ensures r == Err(Io) ==> Fallible()
      ensures CommitCount(disk.log) == CommitCount(old(disk).log)
      ensures !IsCommitObj(o) ==> Unsynced(disk.log) == Unsynced(old(disk).log)
      ensures NeverHome(old(disk)) ==> NeverHome(disk)
    {
      hide NeverHome, Unsynced, CommitCount;
      ticks := ticks + 1;
      if faulty(ticks) {
        return Err(Io);
      }
      CommitCountMore(disk.log, Sync(o));
      UnsyncedMore(disk.log, Sync(o));
      if NeverHome(disk) { StillNotHome(disk, RecordEntry, Absent, disk.ledger, o); }
      disk := SyncedOn(disk, o);
      r := Ok(());
    }

    /** A sync between operations' writes settles more and shows nothing new. */
    method SyncValid(o: Obj) returns (r: Outcome<()>)
      requires Valid(disk)
      modifies this
      ensures Valid(disk) && Later(old(disk), disk)
      ensures disk.view == old(disk).view && disk.ledger == old(disk).ledger
      ensures r.Ok? ==> Pending(disk.log) == After(Pending(old(disk).log), o)
      ensures r.Err? ==> r == Err(Io)
      ensures r == Err(Io) ==> Fallible()
      ensures CommitCount(disk.log) == CommitCount(old(disk).log)
      ensures !IsCommitObj(o) ==> Unsynced(disk.log) == Unsynced(old(disk).log)
      ensures SameRuns(old(disk), disk)
    {
      hide CommitCount, Unsynced, Images, RunRecords, RecordDurable, Valid, Later, Grows, Pending, After, SameRefs,
           FewerFinals, SameFinals, OtherRefsSame;
      Unchanged(disk);
      SyncedIsValid(disk, o);
      r := SyncOne(o);
    }

    // ------------------------------------------------------- staging directories

    /** Starts writing a new generation (src/store.rs:744-751). */
    method Stage() returns (r: Outcome<GenerationId>)
      requires Valid(disk)
      modifies this
      ensures Valid(disk) && Later(old(disk), disk)
      ensures disk.ledger == NextGen(old(disk).ledger)
      ensures Only(InGen(old(disk).ledger.nextGen), old(disk).view, disk.view)
      ensures r.Ok? ==> r.value == old(disk).ledger.nextGen
                        && Staged(disk, r.value) && ChildrenAre(disk.view, r.value, map[])
      ensures r.Err? ==> r == Err(Io)
      ensures r == Err(Io) ==> Fallible()
      ensures CommitCount(disk.log) == CommitCount(old(disk).log)
      ensures Unsynced(disk.log) == Unsynced(old(disk).log) && SameRuns(old(disk), disk)
    {
      hide CommitCount, Unsynced, Images, RunRecords, RecordDurable, Valid, Later, Grows, Only, Staged, ChildrenAre,
           SameRefs, FewerFinals, SameFinals, OtherRefsSame;
      var g := disk.ledger.nextGen;
      StageSteps(disk);
      Unchanged(disk);
      disk := Noted(disk, NextGen(disk.ledger));
      var w := Write(GenDir(g), DirVal(Staging), disk.ledger);
      if w.Err? {
        return Err(Io);
      }
      r := Ok(g);
    }

    /** Creates or overwrites one child of a staging directory. */
    method WriteChild(g: GenerationId, n: Name, c: Content, ghost files: Files) returns (r: Outcome<()>)
      requires Valid(disk) && Staged(disk, g) && ChildrenAre(disk.view, g, files)
      modifies this
      ensures Valid(disk) && Later(old(disk), disk) && disk.ledger == old(disk).ledger
      ensures Only(InGen(g), old(disk).view, disk.view) && Staged(disk, g)
      ensures r.Ok? ==> ChildrenAre(disk.view, g, files[n := c])
      ensures r.Err? ==> r == Err(Io)
      ensures r == Err(Io) ==> Fallible()
      ensures CommitCount(disk.log) == CommitCount(old(disk).log)
      ensures Unsynced(disk.log) == Unsynced(old(disk).log) && SameRuns(old(disk), disk)
    {
      hide CommitCount, Unsynced, Images, RunRecords, RecordDurable, Valid, Later, Grows, Only, Staged, ChildrenAre,
           SameRefs, FewerFinals, SameFinals, OtherRefsSame;
      Unchanged(disk);
      ChildSteps(disk, g, n, c, files);
      var w := Write(GenName(g, n), Present, disk.ledger);
      if w.Err? {
        return Err(Io);
      }
      w := Write(GenFile(g, n), FileVal(c), disk.ledger);
      if w.Err? {
        return Err(Io);
      }
      r := Ok(());
    }

    /** Copies `src` into a staging directory, one file at a time. */
    method FillStaging(g: GenerationId, src: Files, ghost files: Files) returns (r: Outcome<()>)
      requires Valid(disk) && Staged(disk, g) && ChildrenAre(disk.view, g, files)
      modifies this
      ensures Valid(disk) && Later(old(disk), disk) && disk.ledger == old(disk).ledger
      ensures Only(InGen(g), old(disk).view, disk.view) && Staged(disk, g)
      ensures r.Ok? ==> ChildrenAre(disk.view, g, files + src)
      ensures r.Err? ==> r == Err(Io)
      ensures r == Err(Io) ==> Fallible()
      ensures CommitCount(disk.log) == CommitCount(old(disk).log)
      ensures Unsynced(disk.log) == Unsynced(old(disk).log) && SameRuns(old(disk), disk)
    {
      hide CommitCount, Unsynced, Images, RunRecords, RecordDurable, Valid, Later, Grows, Only, Staged, ChildrenAre,
           Filled, SameRefs, FewerFinals, SameFinals, OtherRefsSame;
      Unchanged(disk);
      FilledStart(files, src);
      var todo := src.Keys;
      ghost var sofar := files;
      while todo != {}
        invariant Valid(disk) && Later(old(disk), disk) && disk.ledger == old(disk).ledger
        invariant CommitCount(disk.log) == CommitCount(old(disk).log)
        invariant Unsynced(disk.log) == Unsynced(old(disk).log) && SameRuns(old(disk), disk)
        invariant Only(InGen(g), old(disk).view, disk.view) && Staged(disk, g)
        invariant todo <= src.Keys && Filled(files, src, todo, sofar) && ChildrenAre(disk.view, g, sofar)
        decreases todo
      {
        var n :| n in todo;
        ghost var before := disk;
        var w := WriteChild(g, n, src[n], sofar);
        Then(old(disk), before, disk);
        if w.Err? {
          return Err(Io);
        }
        FilledStep(files, src, todo, sofar, n);
        sofar := sofar[n := src[n]];
        todo := todo - {n};
      }
      FilledDone(files, src, sofar);
      r := Ok(());
    }

    /** A new staging directory holding a copy of `files`. */
    method StageFiles(files: Files) returns (r: Outcome<GenerationId>)
      requires Valid(disk)
      modifies this
      ensures Valid(disk) && Later(old(disk), disk) && disk.ledger == NextGen(old(disk).ledger)
      ensures Only(InGen(old(disk).ledger.nextGen), old(disk).view, disk.view)
      ensures r.Ok? ==> r.value == old(disk).ledger.nextGen && Staged(disk, r.value) && ChildrenAre(disk.view, r.value, files)
      ensures r.Err? ==> r == Err(Io)
      ensures r == Err(Io) ==> Fallible()
      ensures CommitCount(disk.log) == CommitCount(old(disk).log)
      ensures Unsynced(disk.log) == Unsynced(old(disk).log) && SameRuns(old(disk), disk)
    {
      hide CommitCount, Unsynced, Images, RunRecords, RecordDurable, Valid, Later, Grows, Only, SameRefs, FewerFinals,
           SameFinals, OtherRefsSame, Staged, ChildrenAre;
      r := Stage();
      ghost var d1 := disk;
      if r.Err? {
        return Err(Io);
      }
      var w := FillStaging(r.value, files, map[]);
      assert map[] + files == files;
      Then(old(disk), d1, disk);
      if w.Err? {
        return Err(Io);
      }
    }

    /** Syncs every file of a directory, then the directory (src/store.rs:1065-1078). */
    method SyncTree(g: GenerationId, ghost files: Files) returns (r: Outcome<()>)
      requires Valid(disk) && ChildrenAre(disk.view, g, files)
      modifies this
      ensures Valid(disk) && Later(old(disk), disk)
      ensures disk.view == old(disk).view && disk.ledger == old(disk).ledger
      ensures r.Ok? ==> TreeSynced(Pending(disk.log), g, files.Keys)
      ensures r.Err? ==> r == Err(Io)
      ensures r == Err(Io) ==> Fallible()
      ensures CommitCount(disk.log) == CommitCount(old(disk).log)
      ensures Unsynced(disk.log) == Unsynced(old(disk).log) && SameRuns(old(disk), disk)
    {
      hide CommitCount, Unsynced, Images, RunRecords, RecordDurable, Valid, Later, Grows, ChildrenAre, Pending, After,
           TreeSynced, FilesSynced, SameRefs, FewerFinals, SameFinals, OtherRefsSame;
      Unchanged(disk);
      ListingIs(disk.view, g, files);
      var todo := Listing(disk.view, g);
      NoneSynced(Pending(disk.log), InGen(g));
      while todo != {}
        invariant Valid(disk) && Later(old(disk), disk)
        invariant CommitCount(disk.log) == CommitCount(old(disk).log)
        invariant Unsynced(disk.log) == Unsynced(old(disk).log) && SameRuns(old(disk), disk)
        invariant disk.view == old(disk).view && disk.ledger == old(disk).ledger
        invariant todo <= files.Keys && FilesSynced(Pending(disk.log), InGen(g), files.Keys - todo)
        decreases todo
      {
        var n :| n in todo;
        ghost var before := disk;
        var w := SyncValid(GenFileObj(g, n));
        Then(old(disk), before, disk);
        if w.Err? {
          return Err(Io);
        }
        OneMoreSynced(Pending(before.log), InGen(g), files.Keys - todo, n);
        assert files.Keys - todo + {n} == files.Keys - (todo - {n});
        todo := todo - {n};
      }
      ghost var before := disk;
      var w := SyncValid(GenDirObj(g));
      Then(old(disk), before, disk);
      if w.Err? {
        return Err(Io);
      }
      assert files.Keys - todo == files.Keys;
      TreeIsSynced(Pending(before.log), g, files.Keys);
      r := Ok(());
    }

    /** The top-level files of a staging directory with their sizes
        (src/store.rs:762-772). */
    method ListFiles(g: GenerationId, ghost files: Files) returns (listed: map<Name, nat>)
      requires ChildrenAre(disk.view, g, files)
      ensures listed == ManifestFiles(files)
    {
      listed := map[];
      ListingIs(disk.view, g, files);
      var todo := Listing(disk.view, g);
      while todo != {}
        invariant todo <= files.Keys
        invariant forall n :: n in listed <==> n in ManifestFiles(files) && n !in todo
        invariant forall n :: n in listed ==> listed[n] == ManifestFiles(files)[n]
        decreases todo
      {
        var n :| n in todo;
        assert ChildIs(disk.view, g, n, files);
        var c := Get(disk.view, GenFile(g, n)).content;
        if c.Data? && n != MANIFEST && n != PIN {
          listed := listed[n := Size(c)];
        }
        todo := todo - {n};
      }
    }

    /** Seals a staging directory with its manifest and pin, syncs it and renames it into
        place (src/store.rs:755-799). Stopped before the rename it has published nothing;
        stopped after it, the generation is in place and complete. */
    method Publish(g: GenerationId, parent: Option<GenerationId>, origin: Origin, ghost files: Files)
      returns (r: Outcome<GenerationId>)
      requires Valid(disk) && Staged(disk, g) && ChildrenAre(disk.view, g, files)
      requires OriginStarted(origin, disk.ledger.nextRun)
      modifies this
      ensures CrashSafe(disk) && Later(old(disk), disk)
      ensures disk.journaled || r != Err(Io) ==> Valid(disk)
      ensures Only(InGen(g), old(disk).view, disk.view)
      ensures r.Ok? ==> r.value == g && IsInPlace(disk.view, g) && GenDir(g) !in Pending(disk.log)
      ensures disk.ledger ==
              if IsInPlace(disk.view, g)
              then WithGeneration(old(disk).ledger, g, PublishedFiles(g, parent, origin, files))
              else old(disk).ledger
      ensures r == Err(NoRootfs) <==> ROOTFS !in ManifestFiles(files)
      ensures r.Err? ==> r == Err(NoRootfs) || r == Err(Io)
      ensures r == Err(Io) ==> Fallible()
      ensures CommitCount(disk.log) == CommitCount(old(disk).log)
      ensures Unsynced(disk.log) == Unsynced(old(disk).log) && SameRuns(old(disk), disk)
    {
      hide CommitCount, Unsynced, Images, RunRecords, RecordDurable, Valid, CrashSafe, Later, Grows, Only, ChildrenAre,
           Pending, WellFormed, Started, TreeSynced, SameRefs, FewerFinals, SameFinals, OtherRefsSame;
      Unchanged(disk);
      var listed := ListFiles(g, files);
      if ROOTFS !in listed {
        return Err(NoRootfs);
      }
      var manifest := Manifest(g, parent, origin, listed);
      var w := WriteChild(g, MANIFEST, ManifestDoc(manifest), files);
      if w.Err? {
        return Err(Io);
      }
      ghost var d1 := disk;
      w := WriteChild(g, PIN, Data([]), files[MANIFEST := ManifestDoc(manifest)]);
      Then(old(disk), d1, disk);
      if w.Err? {
        return Err(Io);
      }
      ghost var all := PublishedFiles(g, parent, origin, files);
      PublishedIsWellFormed(g, parent, origin, files);
      ghost var d2 := disk;
      w := SyncTree(g, all);
      Then(old(disk), d2, disk);
      if w.Err? {
        return Err(Io);
      }
      ghost var d3 := disk;
      ChildrenIs(disk.view, g, all);
      r := RenameIntoPlace(g, Children(disk.view, g));
      Then(old(disk), d3, disk);
    }

    /** The rename of a synced staging directory, and the sync of its parent. */
    method RenameIntoPlace(g: GenerationId, files: Files) returns (r: Outcome<GenerationId>)
      requires Valid(disk) && Staged(disk, g) && ChildrenAre(disk.view, g, files) && WellFormed(g, files)
      requires Started(files, disk.ledger.nextRun)
      requires TreeSynced(Pending(disk.log), g, files.Keys)
      modifies this
      ensures CrashSafe(disk) && Later(old(disk), disk)
      ensures disk.journaled || r != Err(Io) ==> Valid(disk)
      ensures Only(InGen(g), old(disk).view, disk.view)
      ensures r.Ok? ==> r.value == g && IsInPlace(disk.view, g) && GenDir(g) !in Pending(disk.log)
      ensures disk.ledger ==
              if IsInPlace(disk.view, g) then WithGeneration(old(disk).ledger, g, files) else old(disk).ledger
      ensures r.Err? ==> r == Err(Io)
      ensures r == Err(Io) ==> Fallible()
      ensures CommitCount(disk.log) == CommitCount(old(disk).log)
      ensures Unsynced(disk.log) == Unsynced(old(disk).log) && SameRuns(old(disk), disk)
    {
      hide CommitCount, Unsynced, Images, RunRecords, RecordDurable, Valid, CrashSafe, Later, Grows, Only, ChildrenAre,
           Pending, WellFormed, TreeSynced, SameRefs, FewerFinals, SameFinals, OtherRefsSame;
      Unchanged(disk);
      PublishSteps(disk, g, files);
      var w := Write(GenDir(g), DirVal(InPlace), WithGeneration(disk.ledger, g, files));
      if w.Err? {
        return Err(Io);
      }
      SyncedLog(disk, GenerationsDir);
      w := SyncOne(GenerationsDir);
      if w.Err? {
        return Err(Io);
      }
      r := Ok(g);
    }

    // ------------------------------------------------------------------ committing

    /** `commit_file` on the record (src/store.rs:147-169, 460-474). */
    method CommitRecord(rec: Record) returns (r: Outcome<()>)
      requires Valid(disk) && MayCommit(disk, rec)
      modifies this
      ensures CrashSafe(disk) && Later(old(disk), disk)
      ensures disk.journaled || r.Ok? ==> Valid(disk)
      ensures Only(InRecord, old(disk).view, disk.view)
      ensures disk.ledger == old(disk).ledger || disk.ledger == WithRecord(old(disk).ledger, rec)
      ensures r.Ok? ==> RecordOf(disk.view) == Some(rec)
      ensures r.Err? ==> r == Err(Io) && (RecordOf(disk.view) == RecordOf(old(disk).view) || RecordOf(disk.view) == Some(rec))
      ensures r == Err(Io) ==> Fallible()
      ensures CommitCount(disk.log) <= CommitCount(old(disk).log) + 1
      ensures Images(disk.view) == Images(old(disk).view)
      ensures RunRecords(disk.ledger.records) <= RunRecords(old(disk).ledger.records) + RunRecord(rec)
      ensures RunRecord(rec) <= RunRecords(old(disk).ledger.records) ==> SameRuns(old(disk), disk)
      ensures r.Ok? ==> RecordDurable(disk)
      ensures NeverHome(old(disk)) ==> NeverHome(disk)
    {
      hide NeverHome, CommitCount, Unsynced, Images, RunRecords, RecordDurable, Valid, CrashSafe, Later, Grows, Only,
           MayCommit, Pending, SameRefs, FewerFinals, SameFinals, OtherRefsSame;
      Unchanged(disk);
      var t := disk.ledger.nextInode;
      RecordTempSteps(disk, rec);
      NextIsFresh(disk);
      OneMoreRecord(disk.ledger.records, t, rec);
      var w := Write(RecordFile(t), RecordVal(rec), WithRecord(disk.ledger, rec));
      if w.Err? {
        return Err(Io);
      }
      ghost var d1 := disk;
      w := SyncOne(RecordTemp(t));
      if w.Err? {
        return Err(Io);
      }
      ghost var d2 := disk;
      MayCommitKept(old(disk), d2, rec);
      RecordRenameSteps(disk, t);
      Then(old(disk), d2, Written(d2, RecordEntry, Link(t), d2.ledger));
      Then(old(disk), d2, SyncedOn(Written(d2, RecordEntry, Link(t), d2.ledger), InstanceDir));
      w := Write(RecordEntry, Link(t), disk.ledger);
      if w.Err? {
        return Err(Io);
      }
      w := SyncOne(InstanceDir);
      if w.Err? {
        return Err(Io);
      }
      DurableIs(disk, t);
      r := Ok(());
    }

    /** `commit_file` on a checkpoint ref (src/store.rs:924-933). */
    method CommitRef(ref: CheckpointRef) returns (r: Outcome<()>)
      requires Valid(disk) && IsInPlace(disk.view, ref.generation)
      modifies this
      ensures CrashSafe(disk) && Later(old(disk), disk)
      ensures disk.journaled || r.Ok? ==> Valid(disk)
      ensures Only(InRefs, old(disk).view, disk.view) && OtherRefsSame(old(disk).view, disk.view, ref.id)
      ensures disk.ledger == old(disk).ledger || disk.ledger == WithRef(old(disk).ledger, ref)
      ensures r.Ok? ==> RefOf(disk.view, ref.id) == Some(ref)
      ensures r.Err? ==>
                && r == Err(Io)
                && (RefOf(disk.view, ref.id) == RefOf(old(disk).view, ref.id) || RefOf(disk.view, ref.id) == Some(ref))
      ensures r == Err(Io) ==> Fallible()
      ensures CommitCount(disk.log) <= CommitCount(old(disk).log) + 1
      ensures SameRuns(old(disk), disk)
      ensures r.Ok? ==> RefDurable(disk, ref.id)
    {
      hide CommitCount, Unsynced, Images, RunRecords, RecordDurable, Valid, CrashSafe, Later, Grows, Only,
           OtherRefsSame, Pending, SameRefs, FewerFinals, SameFinals;
      Unchanged(disk);
      var t := disk.ledger.nextInode;
      RefTempSteps(disk, ref);
      var w := Write(RefFile(t), RefVal(ref), WithRef(disk.ledger, ref));
      if w.Err? {
        return Err(Io);
      }
      ghost var d1 := disk;
      w := SyncOne(RefTemp(t));
      if w.Err? {
        return Err(Io);
      }
      ghost var d2 := disk;
      OnlyKeeps(InRefs, old(disk).view, d2.view);
      RefEntrySteps(disk, ref.id, Link(t));
      ghost var d3 := Written(d2, RefEntry(ref.id), Link(t), d2.ledger);
      Then(old(disk), d2, d3);
      Then(old(disk), d2, SyncedOn(d3, CheckpointsDir));
      w := Write(RefEntry(ref.id), Link(t), disk.ledger);
      if w.Err? {
        return Err(Io);
      }
      w := SyncOne(CheckpointsDir);
      if w.Err? {
        return Err(Io);
      }
      RefDurableIs(disk, ref.id, t);
      r := Ok(());
    }

    /** Unlinks a ref and syncs its directory (src/store.rs:965-967). */
    method UnlinkRef(c: CheckpointId) returns (r: Outcome<()>)
      requires Valid(disk)
      modifies this
      ensures CrashSafe(disk) && Later(old(disk), disk)
      ensures disk.journaled || r.Ok? ==> Valid(disk)
      ensures Only(InRefs, old(disk).view, disk.view) && OtherRefsSame(old(disk).view, disk.view, c)
      ensures disk.ledger == old(disk).ledger
      ensures r.Ok? ==> RefOf(disk.view, c) == None
      ensures r.Err? ==> r == Err(Io) && (RefOf(disk.view, c) == RefOf(old(disk).view, c) || RefOf(disk.view, c) == None)
      ensures r == Err(Io) ==> Fallible()
      ensures CommitCount(disk.log) <= CommitCount(old(disk).log) + 1
      ensures SameRuns(old(disk), disk)
    {
      hide CommitCount, Unsynced, Images, RunRecords, RecordDurable, Valid, CrashSafe, Later, Grows, Only,
           OtherRefsSame, Pending, SameRefs, FewerFinals, SameFinals;
      Unchanged(disk);
      RefEntrySteps(disk, c, Absent);
      var w := Write(RefEntry(c), Absent, disk.ledger);
      if w.Err? {
        return Err(Io);
      }
      w := SyncOne(CheckpointsDir);
      if w.Err? {
        return Err(Io);
      }
      r := Ok(());
    }

    // ------------------------------------------------------------------------ runs

    /** Creates or overwrites one child of a run directory being prepared. */
    method WriteRunChild(q: RunId, n: Name, c: Content, ghost files: Files) returns (r: Outcome<()>)
      requires Valid(disk) && Preparing(disk, q) && RunChildrenAre(disk.view, q, files) && n !in files
      modifies this
      ensures Valid(disk) && Later(old(disk), disk) && disk.ledger == old(disk).ledger
      ensures Only(InRun(q), old(disk).view, disk.view)
      ensures r.Ok? ==> Preparing(disk, q) && RunChildrenAre(disk.view, q, files[n := c])
      ensures r.Err? ==> r == Err(Io)
      ensures r == Err(Io) ==> Fallible()
      ensures CommitCount(disk.log) == CommitCount(old(disk).log)
      ensures Unsynced(disk.log) == Unsynced(old(disk).log)
      ensures Images(disk.view) - {q} == Images(old(disk).view) - {q}
      ensures ImageOn(disk.view, q) == ImageOn(old(disk).view, q) || (n == ROOTFS && ImageOn(disk.view, q) == DiskImage(FileVal(c)))
    {
      hide CommitCount, Unsynced, Images, RunRecords, RecordDurable, Valid, Later, Grows, Only, Preparing,
           RunChildrenAre, SameRefs, FewerFinals, SameFinals, OtherRefsSame;
      Unchanged(disk);
      RunChildSteps(disk, q, n, c, files);
      var w := Write(RunName(q, n), Present, disk.ledger);
      if w.Err? {
        return Err(Io);
      }
      w := Write(RunFile(q, n), FileVal(c), disk.ledger);
      if w.Err? {
        return Err(Io);
      }
      r := Ok(());
    }

    method FillRun(q: RunId, src: Files) returns (r: Outcome<()>)
      requires Valid(disk) && Preparing(disk, q) && RunChildrenAre(disk.view, q, map[])
      modifies this
      ensures Valid(disk) && Later(old(disk), disk) && disk.ledger == old(disk).ledger
      ensures Only(InRun(q), old(disk).view, disk.view)
      ensures r.Ok? ==> Preparing(disk, q) && RunChildrenAre(disk.view, q, src)
      ensures r.Err? ==> r == Err(Io)
      ensures r == Err(Io) ==> Fallible()
      ensures CommitCount(disk.log) == CommitCount(old(disk).log)
      ensures Unsynced(disk.log) == Unsynced(old(disk).log)
      ensures Images(disk.view) - {q} == Images(old(disk).view) - {q}
      ensures ImageOn(disk.view, q) == ImageOn(old(disk).view, q) || ImageOn(disk.view, q) == FilesImage(src)
    {
      hide ImageOn, CommitCount, Unsynced, Images, RunRecords, RecordDurable, Valid, Later, Grows, Only, Preparing,
           RunChildrenAre, Filled, SameRefs, FewerFinals, SameFinals, OtherRefsSame;
      Unchanged(disk);
      FilledStart(map[], src);
      var todo := src.Keys;
      ghost var sofar: Files := map[];
      while todo != {}
        invariant Valid(disk) && Later(old(disk), disk) && disk.ledger == old(disk).ledger
        invariant CommitCount(disk.log) == CommitCount(old(disk).log)
        invariant Unsynced(disk.log) == Unsynced(old(disk).log)
        invariant Images(disk.view) - {q} == Images(old(disk).view) - {q}
        invariant ImageOn(disk.view, q) == ImageOn(old(disk).view, q) || ImageOn(disk.view, q) == FilesImage(src)
        invariant Only(InRun(q), old(disk).view, disk.view) && Preparing(disk, q)
        invariant todo <= src.Keys && Filled(map[], src, todo, sofar) && RunChildrenAre(disk.view, q, sofar)
        decreases todo
      {
        var n :| n in todo;
        ghost var before := disk;
        FilledStep(map[], src, todo, sofar, n);
        var w := WriteRunChild(q, n, src[n], sofar);
        Then(old(disk), before, disk);
        if w.Err? {
          return Err(Io);
        }
        sofar := sofar[n := src[n]];
        todo := todo - {n};
      }
      FilledDone(map[], src, sofar);
      assert map[] + src == src;
      r := Ok(());
    }

    /** `sync_tree` on a run directory, then `sync_dir` on its parent
        (src/store.rs:618-619). */
    method SyncRun(q: RunId, ghost files: Files) returns (r: Outcome<()>)
      requires Valid(disk) && RunChildrenAre(disk.view, q, files)
      modifies this
      ensures Valid(disk) && Later(old(disk), disk)
      ensures disk.view == old(disk).view && disk.ledger == old(disk).ledger
      ensures r.Ok? ==> RunTreeSynced(Pending(disk.log), q, files.Keys)
      ensures r.Err? ==> r == Err(Io)
      ensures r == Err(Io) ==> Fallible()
      ensures CommitCount(disk.log) == CommitCount(old(disk).log)
      ensures Unsynced(disk.log) == Unsynced(old(disk).log) && SameRuns(old(disk), disk)
    {
      hide CommitCount, Unsynced, Images, RunRecords, RecordDurable, Valid, Later, Grows, RunChildrenAre, Pending,
           After, RunTreeSynced, FilesSynced, SameRefs, FewerFinals, SameFinals, OtherRefsSame;
      Unchanged(disk);
      RunListingIs(disk.view, q, files);
      var todo := RunListing(disk.view, q);
      NoneSynced(Pending(disk.log), InRun(q));
      while todo != {}
        invariant Valid(disk) && Later(old(disk), disk)
        invariant CommitCount(disk.log) == CommitCount(old(disk).log)
        invariant Unsynced(disk.log) == Unsynced(old(disk).log) && SameRuns(old(disk), disk)
        invariant disk.view == old(disk).view && disk.ledger == old(disk).ledger
        invariant todo <= files.Keys && FilesSynced(Pending(disk.log), InRun(q), files.Keys - todo)
        decreases todo
      {
        var n :| n in todo;
        ghost var before := disk;
        var w := SyncValid(RunFileObj(q, n));
        Then(old(disk), before, disk);
        if w.Err? {
          return Err(Io);
        }
        OneMoreSynced(Pending(before.log), InRun(q), files.Keys - todo, n);
        assert files.Keys - todo + {n} == files.Keys - (todo - {n});
        todo := todo - {n};
      }
      assert files.Keys - todo == files.Keys;
      ghost var d1 := disk;
      var w := SyncValid(RunDirObj(q));
      Then(old(disk), d1, disk);
      if w.Err? {
        return Err(Io);
      }
      ghost var d2 := disk;
      w := SyncValid(RunsDir);
      Then(old(disk), d2, disk);
      if w.Err? {
        return Err(Io);
      }
      RunTreeIsSynced(Pending(d1.log), q, files.Keys);
      r := Ok(());
    }

    /** A new, empty run directory (src/store.rs:606-608). */
    method MakeRun() returns (r: Outcome<RunId>)
      requires Valid(disk)
      modifies this
      ensures Valid(disk) && Later(old(disk), disk) && disk.ledger == NextRun(old(disk).ledger)
      ensures Only(InRun(old(disk).ledger.nextRun), old(disk).view, disk.view)
      ensures r.Ok? ==> r.value == old(disk).ledger.nextRun && Preparing(disk, r.value) && RunChildrenAre(disk.view, r.value, map[])
      ensures r.Err? ==> r == Err(Io)
      ensures r == Err(Io) ==> Fallible()
      ensures CommitCount(disk.log) == CommitCount(old(disk).log)
      ensures Unsynced(disk.log) == Unsynced(old(disk).log) && SameRuns(old(disk), disk)
      ensures ImageOn(disk.view, old(disk).ledger.nextRun) == []
    {
      hide ImageOn, CommitCount, Unsynced, Images, RunRecords, RecordDurable, Valid, Later, Grows, Only, SameRefs,
           FewerFinals, SameFinals, OtherRefsSame, Preparing, RunChildrenAre, Pending;
      var q := disk.ledger.nextRun;
      FreshImage(disk);
      RunStartSteps(disk);
      Unchanged(disk);
      disk := Noted(disk, NextRun(disk.ledger));
      var w := Write(RunDir(q), DirVal(InPlace), disk.ledger);
      if w.Err? {
        return Err(Io);
      }
      r := Ok(q);
    }

    /** A private, synced copy of `files` in a new run directory (src/store.rs:606-619). */
    method PrepareRun(files: Files) returns (r: Outcome<RunId>)
      requires Valid(disk)
      modifies this
      ensures Valid(disk) && Later(old(disk), disk)
      ensures Only(InRun(old(disk).ledger.nextRun), old(disk).view, disk.view)
      ensures disk.ledger.published == old(disk).ledger.published
      ensures r.Ok? ==>
                && r.value == old(disk).ledger.nextRun
                && RunComplete(disk.view, disk.ledger, r.value)
                && RunSettled(Pending(disk.log), disk.journaled, disk.ledger, r.value)
                && r.value in disk.ledger.prepared && disk.ledger.prepared[r.value] == files.Keys
                && RunChildrenAre(disk.view, r.value, files)
      ensures r.Err? ==> r == Err(Io)
      ensures r == Err(Io) ==> Fallible()
      ensures CommitCount(disk.log) == CommitCount(old(disk).log)
      ensures Unsynced(disk.log) == Unsynced(old(disk).log)
      ensures Images(disk.view) - {old(disk).ledger.nextRun} == Images(old(disk).view) - {old(disk).ledger.nextRun}
      ensures ImageOn(disk.view, old(disk).ledger.nextRun) == [] || ImageOn(disk.view, old(disk).ledger.nextRun) == FilesImage(files)
      ensures RunRecords(disk.ledger.records) == RunRecords(old(disk).ledger.records)
    {
      hide ImageOn, FilesImage, CommitCount, Unsynced, Images, RunRecords, RecordDurable, Valid, Later, Grows, Only,
           Preparing, RunChildrenAre, Pending, RunComplete, RunSettled, RunTreeSynced, SameRefs, FewerFinals,
           SameFinals, OtherRefsSame;
      r := MakeRun();
      ghost var d1 := disk;
      if r.Err? {
        return;
      }
      var q := r.value;
      var w := FillRun(q, files);
      Then(old(disk), d1, disk);
      if w.Err? {
        return Err(Io);
      }
      ghost var d2 := disk;
      w := SyncRun(q, files);
      Then(old(disk), d2, disk);
      PreparingKept(d2, disk, q);
      if w.Err? {
        return Err(Io);
      }
      ghost var d3 := disk;
      RunReadySteps(disk, q, files);
      disk := Noted(disk, WithRun(disk.ledger, q, files.Keys));
      Then(old(disk), d3, disk);
    }

    /** Removes a run directory file by file (src/store.rs:1011). */
    method RemoveRun(q: RunId) returns (r: Outcome<()>)
      requires Valid(disk) && q < disk.ledger.nextRun && RunUnnamed(disk.view, q)
      modifies this
      ensures Valid(disk) && Later(old(disk), disk) && disk.ledger == old(disk).ledger
      ensures Only(InRun(q), old(disk).view, disk.view)
      ensures r.Ok? ==> Get(disk.view, RunDir(q)) == Absent
      ensures r.Err? ==> r == Err(Io)
      ensures r == Err(Io) ==> Fallible()
      ensures CommitCount(disk.log) == CommitCount(old(disk).log)
      ensures Unsynced(disk.log) == Unsynced(old(disk).log) && SameRuns(old(disk), disk)
    {
      hide CommitCount, Unsynced, Images, RunRecords, RecordDurable, Valid, Later, Grows, Only, RunUnnamed, Pending,
           SameRefs, FewerFinals, SameFinals, OtherRefsSame;
      Unchanged(disk);
      var todo := RunListing(disk.view, q);
      while todo != {}
        invariant Valid(disk) && Later(old(disk), disk) && disk.ledger == old(disk).ledger
        invariant CommitCount(disk.log) == CommitCount(old(disk).log)
        invariant Unsynced(disk.log) == Unsynced(old(disk).log) && SameRuns(old(disk), disk)
        invariant Only(InRun(q), old(disk).view, disk.view) && RunUnnamed(disk.view, q)
        decreases todo
      {
        var n :| n in todo;
        ghost var before := disk;
        RunWriteIsValid(disk, q, RunName(q, n), Absent);
        var w := Write(RunName(q, n), Absent, disk.ledger);
        if w.Err? {
          return Err(Io);
        }
        RunWriteFrame(old(disk).view, before.view, q, RunName(q, n), Absent);
        Then(old(disk), before, disk);
        todo := todo - {n};
      }
      ghost var before := disk;
      RunWriteIsValid(disk, q, RunDir(q), Absent);
      var w := Write(RunDir(q), Absent, disk.ledger);
      if w.Err? {
        return Err(Io);
      }
      RunWriteFrame(old(disk).view, before.view, q, RunDir(q), Absent);
      Then(old(disk), before, disk);
      r := Ok(());
    }

    // --------------------------------------------------------------------- garbage

    /** Removes a staging or trash directory file by file (src/store.rs:1021, 1047). */
    method RemoveGen(g: GenerationId) returns (r: Outcome<()>)
      requires Valid(disk) && g < disk.ledger.nextGen && Unnamed(disk.view, g) && !IsInPlace(disk.view, g)
      modifies this
      ensures Valid(disk) && Later(old(disk), disk) && disk.ledger == old(disk).ledger
      ensures Only(InGen(g), old(disk).view, disk.view) && !IsInPlace(disk.view, g)
      ensures r.Ok? ==> Get(disk.view, GenDir(g)) == Absent
      ensures r.Err? ==> r == Err(Io)
      ensures r == Err(Io) ==> Fallible()
      ensures CommitCount(disk.log) == CommitCount(old(disk).log)
      ensures Unsynced(disk.log) == Unsynced(old(disk).log) && SameRuns(old(disk), disk)
    {
      hide CommitCount, Unsynced, Images, RunRecords, RecordDurable, Valid, Later, Grows, Only, Unnamed, Pending,
           SameRefs, FewerFinals, SameFinals, OtherRefsSame;
      Unchanged(disk);
      var todo := Listing(disk.view, g);
      while todo != {}
        invariant Valid(disk) && Later(old(disk), disk) && disk.ledger == old(disk).ledger
        invariant CommitCount(disk.log) == CommitCount(old(disk).log)
        invariant Unsynced(disk.log) == Unsynced(old(disk).log) && SameRuns(old(disk), disk)
        invariant Only(InGen(g), old(disk).view, disk.view) && Unnamed(disk.view, g) && !IsInPlace(disk.view, g)
        decreases todo
      {
        var n :| n in todo;
        ghost var before := disk;
        CollectWriteIsValid(disk, g, GenName(g, n), Absent);
        var w := Write(GenName(g, n), Absent, disk.ledger);
        if w.Err? {
          return Err(Io);
        }
        GenWriteFrame(old(disk).view, before.view, g, GenName(g, n), Absent);
        Then(old(disk), before, disk);
        todo := todo - {n};
      }
      ghost var before := disk;
      CollectWriteIsValid(disk, g, GenDir(g), Absent);
      var w := Write(GenDir(g), Absent, disk.ledger);
      if w.Err? {
        return Err(Io);
      }
      GenWriteFrame(old(disk).view, before.view, g, GenDir(g), Absent);
      Then(old(disk), before, disk);
      r := Ok(());
    }

    /** Moves an unnamed generation to trash, then removes it (src/store.rs:1041-1048). */
    method TrashGen(g: GenerationId) returns (r: Outcome<()>)
      requires Valid(disk) && g < disk.ledger.nextGen && Unnamed(disk.view, g)
      modifies this
      ensures Valid(disk) && Later(old(disk), disk) && disk.ledger == old(disk).ledger
      ensures disk == old(disk) || (Only(InGen(g), old(disk).view, disk.view) && !IsInPlace(disk.view, g))
      ensures r.Ok? ==> Get(disk.view, GenDir(g)) == Absent
      ensures r.Err? ==> r == Err(Io)
      ensures r == Err(Io) ==> Fallible()
      ensures CommitCount(disk.log) == CommitCount(old(disk).log)
      ensures Unsynced(disk.log) == Unsynced(old(disk).log) && SameRuns(old(disk), disk)
    {
      hide CommitCount, Unsynced, Images, RunRecords, RecordDurable, Valid, Later, Grows, Only, Unnamed, Pending,
           SameRefs, FewerFinals, SameFinals, OtherRefsSame;
      Unchanged(disk);
      CollectWriteIsValid(disk, g, GenDir(g), DirVal(Trash));
      var w := Write(GenDir(g), DirVal(Trash), disk.ledger);
      if w.Err? {
        return Err(Io);
      }
      GenWriteFrame(old(disk).view, old(disk).view, g, GenDir(g), DirVal(Trash));
      ghost var before := disk;
      r := RemoveGen(g);
      Then(old(disk), before, disk);
    }

    method CollectRuns(live: Option<RunId>, ghost pinned: set<GenerationId>) returns (r: Outcome<()>)
      requires Valid(disk) && RecordOf(disk.view).Some? && live == RecordOf(disk.view).value.phase.Run()
      modifies this
      ensures Valid(disk) && Later(old(disk), disk) && disk.ledger == old(disk).ledger
      ensures OnlyGarbage(old(disk).view, disk.view, pinned)
      ensures r.Ok? ==> RunsLeft(disk.view, {})
      ensures r.Err? ==> r == Err(Io)
      ensures r == Err(Io) ==> Fallible()
      ensures CommitCount(disk.log) == CommitCount(old(disk).log)
      ensures Unsynced(disk.log) == Unsynced(old(disk).log) && SameRuns(old(disk), disk)
    {
      hide CommitCount, Unsynced, Images, RunRecords, RecordDurable, Valid, Later, Grows, OnlyGarbage, RunUnnamed,
           RunsLeft, SameRefs, FewerFinals, SameFinals, OtherRefsSame;
      Unchanged(disk);
      OnlyGarbageSelf(disk.view, pinned);
      RunDirsAreOld(disk);
      var todo := RunDirs(disk.view);
      while todo != {}
        invariant Valid(disk) && Later(old(disk), disk) && disk.ledger == old(disk).ledger
        invariant CommitCount(disk.log) == CommitCount(old(disk).log)
        invariant Unsynced(disk.log) == Unsynced(old(disk).log) && SameRuns(old(disk), disk)
        invariant OnlyGarbage(old(disk).view, disk.view, pinned)
        invariant RunsLeft(disk.view, todo)
        invariant forall q :: q in todo ==> q < disk.ledger.nextRun
        decreases todo
      {
        var q :| q in todo;
        ghost var before := disk;
        GarbageIsUncommitted(old(disk).view, disk.view, pinned);
        LiveRunIsNamed(disk.view, live, q);
        if live != Some(q) {
          var w := RemoveRun(q);
          Then(old(disk), before, disk);
          OnlyGarbageRun(old(disk).view, before.view, disk.view, pinned, q);
          if w.Err? {
            return Err(Io);
          }
        }
        RunsLeftStep(before.view, disk.view, todo, q);
        todo := todo - {q};
      }
      r := Ok(());
    }

    method CollectGens(referenced: set<GenerationId>, pinned: set<GenerationId>) returns (r: Outcome<()>)
      requires Valid(disk) && forall g :: g in referenced <==> !Unnamed(disk.view, g)
      modifies this
      ensures Valid(disk) && Later(old(disk), disk) && disk.ledger == old(disk).ledger
      ensures OnlyGarbage(old(disk).view, disk.view, pinned)
      ensures forall q :: Get(disk.view, RunDir(q)) == Get(old(disk).view, RunDir(q))
      ensures r.Ok? ==> GensLeft(disk.view, pinned, {})
      ensures r.Err? ==> r == Err(Io)
      ensures r == Err(Io) ==> Fallible()
      ensures CommitCount(disk.log) == CommitCount(old(disk).log)
      ensures Unsynced(disk.log) == Unsynced(old(disk).log) && SameRuns(old(disk), disk)
    {
      hide CommitCount, Unsynced, Images, RunRecords, RecordDurable, Valid, Later, Grows, OnlyGarbage, Unnamed,
           GensLeft, GarbageGen, Only, SameRefs, FewerFinals, SameFinals, OtherRefsSame;
      Unchanged(disk);
      OnlyGarbageSelf(disk.view, pinned);
      GenDirsAreOld(disk, pinned);
      var todo := GenerationDirs(disk.view);
      while todo != {}
        invariant Valid(disk) && Later(old(disk), disk) && disk.ledger == old(disk).ledger
        invariant CommitCount(disk.log) == CommitCount(old(disk).log)
        invariant Unsynced(disk.log) == Unsynced(old(disk).log) && SameRuns(old(disk), disk)
        invariant OnlyGarbage(old(disk).view, disk.view, pinned)
        invariant forall q :: Get(disk.view, RunDir(q)) == Get(old(disk).view, RunDir(q))
        invariant GensLeft(disk.view, pinned, todo)
        invariant forall g :: g in todo ==> g < disk.ledger.nextGen && Get(disk.view, GenDir(g)) == Get(old(disk).view, GenDir(g))
        decreases todo
      {
        var g :| g in todo;
        ghost var before := disk;
        GarbageIsUncommitted(old(disk).view, disk.view, pinned);
        var w := Ok(());
        if !IsInPlace(disk.view, g) {
          NotInPlaceIsGarbage(disk, pinned, g);
          GarbageAsBefore(old(disk).view, disk.view, pinned, g);
          w := RemoveGen(g);
          OnlyGarbageGen(old(disk).view, before.view, disk.view, pinned, g);
          OnlyKeeps(InGen(g), before.view, disk.view);
        } else if g !in referenced && g !in pinned {
          GarbageAsBefore(old(disk).view, disk.view, pinned, g);
          w := TrashGen(g);
          if disk != before {
            OnlyGarbageGen(old(disk).view, before.view, disk.view, pinned, g);
            OnlyKeeps(InGen(g), before.view, disk.view);
          }
        }
        Unchanged(before);
        Then(old(disk), before, disk);
        if w.Err? {
          return Err(Io);
        }
        GensLeftStep(before.view, disk.view, pinned, todo, g);
        todo := todo - {g};
      }
      r := Ok(());
    }

    /** Touches garbage alone, and once it returns none is left: every directory is a
        generation in place that is named or in `pinned`, or the recorded run
        (src/store.rs:993-1052). `pinned` are those whose pin file is locked. */
    method CollectGarbage(pinned: set<GenerationId>) returns (r: Outcome<()>)
      requires Valid(disk)
      modifies this
      ensures Valid(disk) && Later(old(disk), disk) && disk.ledger == old(disk).ledger
      ensures OnlyGarbage(old(disk).view, disk.view, pinned)
      ensures RecordOf(disk.view) == RecordOf(old(disk).view) && SameRefs(old(disk).view, disk.view)
      ensures State(disk) == State(old(disk))
      ensures r.Ok? ==> NoGarbage(disk.view, pinned)
      ensures r.Err? ==> r == Err(if RecordOf(old(disk).view).None? then NoState else Io)
      ensures RecordOf(old(disk).view).None? ==> r == Err(NoState)
      ensures FewerFinals(old(disk), disk)
      ensures r == Err(Io) ==> Fallible()
      ensures CommitCount(disk.log) == CommitCount(old(disk).log)
      ensures Unsynced(disk.log) == Unsynced(old(disk).log) && SameRuns(old(disk), disk)
    {
      hide CommitCount, Unsynced, Images, RunRecords, RecordDurable, FewerFinals, Valid, CrashSafe, Later, Grows,
           OnlyGarbage, Unnamed, GensLeft, RunsLeft, NoGarbage, State, SameRefs, Referenced, SameFinals, OtherRefsSame;
      Unchanged(disk);
      OnlyGarbageSelf(disk.view, pinned);
      GarbageKeepsState(disk, disk, pinned);
      var record := RecordOf(disk.view);
      if record.None? {
        return Err(NoState);
      }
      var referenced := Referenced(disk.view);
      var w := CollectRuns(record.value.phase.Run(), pinned);
      ghost var d1 := disk;
      GarbageKeepsState(old(disk), disk, pinned);
      if w.Err? {
        return Err(Io);
      }
      forall g ensures g in referenced <==> !Unnamed(disk.view, g) {
        ReferencedIsNamed(old(disk), g);
        GarbageIsUncommitted(old(disk).view, disk.view, pinned);
      }
      w := CollectGens(referenced, pinned);
      OnlyGarbageTransitive(old(disk).view, d1.view, disk.view, pinned);
      Then(old(disk), d1, disk);
      GarbageKeepsState(old(disk), disk, pinned);
      if w.Err? {
        return Err(Io);
      }
      NothingLeft(d1.view, disk.view, pinned);
      r := Ok(());
    }

    // ------------------------------------------------------------------- operations

    /** Of the generations in place whose origin is a final snapshot of `run`, the one
        with the greatest id (src/store.rs:556-568). */
    method FinalGenerationOf(run: RunId) returns (found: Option<GenerationId>)
      requires Valid(disk)
      ensures NewestFinal(disk, run, found, disk.ledger.nextGen)
      ensures found.None? ==> forall g :: !IsFinal(disk, run, g)
      ensures found.Some? ==> IsFinal(disk, run, found.value) && forall g :: g > found.value ==> !IsFinal(disk, run, g)
    {
      hide Valid, CrashSafe, ReadGeneration, NewestFinal;
      found := None;
      NoFinalBelow(disk, run);
      for g := 0 to disk.ledger.nextGen
        invariant NewestFinal(disk, run, found, g)
      {
        FinalIsRead(disk, run, g);
        var generation := ReadGeneration(disk.view, g);
        NewestFinalStep(disk, run, found, g);
        if generation.Ok? && generation.value.origin == Snapshot(run) {
          found := Some(g);
        }
      }
      NewestOfAll(disk, run, found);
    }

    /** The new record first, the collection second: nothing the old record named is
        touched before the new one is synced. */
    method CommitAndCollect(rec: Record, pinned: set<GenerationId>) returns (r: Outcome<()>)
      requires Valid(disk) && MayCommit(disk, rec)
      modifies this
      ensures CrashSafe(disk) && Later(old(disk), disk)
      ensures disk.journaled || r != Err(Io) ==> Valid(disk)
      ensures SameRefs(old(disk).view, disk.view)
      ensures disk.ledger.published == old(disk).ledger.published
      ensures CommitOutcome(old(disk), disk, rec, r.Ok?)
      ensures r.Ok? ==> NoGarbage(disk.view, pinned)
      ensures r.Err? ==> r == Err(Io)
      ensures FewerFinals(old(disk), disk)
      ensures r == Err(Io) ==> Fallible()
      ensures CommitCount(disk.log) <= CommitCount(old(disk).log) + 1
      ensures RunRecord(rec) <= RunRecords(old(disk).ledger.records) ==> SameRuns(old(disk), disk)
      ensures r.Ok? ==> RecordDurable(disk)
    {
      hide CommitCount, Unsynced, Images, RunRecords, RecordDurable, FewerFinals, Valid, CrashSafe, Later, Grows,
           MayCommit, Only, State, StateWith, SameRefs, NoGarbage, OnlyGarbage, SameFinals, OtherRefsSame;
      var w := CommitRecord(rec);
      ghost var d1 := disk;
      OnlyKeeps(InRecord, old(disk).view, disk.view);
      CommitsKeepFinals(old(disk), disk);
      if RecordOf(disk.view) == RecordOf(old(disk).view) {
        RecordKeptState(old(disk), disk);
      }
      if RecordOf(disk.view) == Some(rec) {
        CommitState(old(disk), disk, rec);
      }
      if w.Err? {
        return Err(Io);
      }
      r := CollectGarbage(pinned);
      GarbageIsUncommitted(d1.view, disk.view, pinned);
      DurableKept(d1, disk);
      Then(old(disk), d1, disk);
    }

    /** Leaves a stopped instance without garbage, or refuses (src/store.rs:531-553). It
        never answers a run that served commands with an older state. */
    method Recover(pinned: set<GenerationId>) returns (r: Outcome<Recovery>)
      requires Valid(disk)
      modifies this
      ensures CrashSafe(disk) && Later(old(disk), disk)
      ensures disk.journaled || r != Err(Io) ==> Valid(disk)
      ensures SameRefs(old(disk).view, disk.view)
      ensures disk.ledger.published == old(disk).ledger.published
      ensures RecordOf(old(disk).view).None? <==> r == Err(NoState)
      ensures r == Err(NoState) ==> disk == old(disk)
      // it refuses exactly when the run served commands and left no final snapshot
      ensures r.Err? && r.error.CrashedWithUnsavedState? ==>
                && disk == old(disk) && RecordOf(disk.view).value.phase == Dirty(r.error.run)
                && forall g :: !IsFinal(disk, r.error.run, g)
      ensures RecordOf(old(disk).view).Some? && RecordOf(old(disk).view).value.phase.Dirty?
              && (forall g :: !IsFinal(old(disk), RecordOf(old(disk).view).value.phase.run, g))
              ==> r == Err(CrashedWithUnsavedState(RecordOf(old(disk).view).value.phase.run))
      ensures r.Ok? ==> Recovered(old(disk), disk, r.value) && NoGarbage(disk.view, pinned)
      ensures r == Err(Io) ==>
                || (State(disk) == State(old(disk)) && RecordOf(disk.view) == RecordOf(old(disk).view) && SameFinals(old(disk), disk))
                || exists how :: Recovered(old(disk), disk, how)
      ensures r.Err? ==> r.error.CrashedWithUnsavedState? || r == Err(NoState) || r == Err(Io)
      ensures FewerFinals(old(disk), disk)
      ensures r == Err(Io) ==> Fallible()
      ensures CommitCount(disk.log) <= CommitCount(old(disk).log) + 1
      ensures SameRuns(old(disk), disk)
      ensures r.Ok? && r.value != Clean ==> RecordDurable(disk)
    {
      hide CommitCount, Unsynced, Images, RunRecords, RecordDurable, FewerFinals, Valid, CrashSafe, Later, Grows,
           MayCommit, State, StateWith, SameRefs, NoGarbage, OnlyGarbage, IsFinal, Recovered, SameFinals, OtherRefsSame;
      Unchanged(disk);
      var record := RecordOf(disk.view);
      if record.None? {
        return Err(NoState);
      }
      var phase := record.value.phase;
      if phase.Stopped? {
        var w := CollectGarbage(pinned);
        RecoveredClean(old(disk), disk);
        return if w.Ok? then Ok(Clean) else Err(Io);
      }
      var run := phase.run;
      var final := FinalGenerationOf(run);
      if final.Some? {
        var rec := Record(final, Stopped);
        MayCommitStopped(disk, rec, run);
        var w := CommitAndCollect(rec, pinned);
        RecoveredForward(old(disk), disk, run, final.value);
        return if w.Ok? then Ok(RolledForward(final.value)) else Err(Io);
      } else if phase.Running? {
        var rec := Record(record.value.latest, Stopped);
        MayCommitLatest(disk, rec);
        var w := CommitAndCollect(rec, pinned);
        RecoveredIdle(old(disk), disk, run);
        return if w.Ok? then Ok(DiscardedIdleRun(run)) else Err(Io);
      }
      r := Err(CrashedWithUnsavedState(run));
    }

    /** Stages `files`, publishes them, and returns the new generation. */
    method NewGeneration(files: Files, parent: Option<GenerationId>, origin: Origin) returns (r: Outcome<GenerationId>)
      requires Valid(disk) && OriginStarted(origin, disk.ledger.nextRun)
      modifies this
      ensures CrashSafe(disk) && Later(old(disk), disk)
      ensures disk.journaled || r != Err(Io) ==> Valid(disk)
      ensures NewGenerationOf(old(disk), disk, parent, origin, files)
      ensures r.Ok? ==> r.value == old(disk).ledger.nextGen && IsInPlace(disk.view, r.value) && GenDir(r.value) !in Pending(disk.log)
      ensures r.Ok? ==> RecordedAs(disk.ledger, r.value, parent, origin)
      ensures r.Err? ==> r == Err(Io) || r == Err(NoRootfs)
      ensures r.Ok? ==> ROOTFS in ManifestFiles(files)
      ensures r == Err(NoRootfs) ==> ROOTFS !in ManifestFiles(files)
      ensures r == Err(Io) ==> Fallible()
      ensures CommitCount(disk.log) == CommitCount(old(disk).log)
      ensures Unsynced(disk.log) == Unsynced(old(disk).log) && SameRuns(old(disk), disk)
      ensures RecordDurable(old(disk)) ==> RecordDurable(disk)
    {
      hide CommitCount, Unsynced, Images, RunRecords, RecordDurable, Valid, CrashSafe, Later, Grows, Only, Staged,
           ChildrenAre, Pending, NewGenerationOf, PublishedFiles, ManifestFiles, IsInPlace, SameRefs, FewerFinals,
           SameFinals, OtherRefsSame, RecordedAs;
      var g := disk.ledger.nextGen;
      NextNotInPlace(disk);
      var s := StageFiles(files);
      ghost var d1 := disk;
      UnpublishedNotInPlace(disk, g);
      OnlyKeeps(InGen(g), old(disk).view, disk.view);
      if RecordDurable(old(disk)) { DurableKept(old(disk), disk); }
      if s.Err? {
        NewGenerationIs(old(disk), disk, parent, origin, files);
        return Err(Io);
      }
      r := Publish(g, parent, origin, files);
      Then(old(disk), d1, disk);
      OnlyKeeps(InGen(g), d1.view, disk.view);
      if RecordDurable(d1) { DurableKept(d1, disk); }
      NewGenerationIs(old(disk), disk, parent, origin, files);
      if r.Ok? { RecordedNew(old(disk), disk, parent, origin, files); }
    }

    /** One record commit: afterwards the saved state is what `g` was published with and
        no run is open; cut off, that or the state before (src/store.rs:803-807). */
    method CommitLatest(g: GenerationId, pinned: set<GenerationId>) returns (r: Outcome<()>)
      requires Valid(disk)
      modifies this
      ensures CrashSafe(disk) && Later(old(disk), disk)
      ensures disk.journaled || r != Err(Io) ==> Valid(disk)
      ensures SameRefs(old(disk).view, disk.view) && disk.ledger.published == old(disk).ledger.published
      ensures r == Err(BadGeneration(g)) <==> !IsInPlace(old(disk).view, g)
      ensures r == Err(BadGeneration(g)) ==> disk == old(disk)
      ensures r.Ok? ==> NoGarbage(disk.view, pinned)
      ensures r != Err(BadGeneration(g)) ==> CommitOutcome(old(disk), disk, Record(Some(g), Stopped), r.Ok?)
      ensures r.Err? ==> r == Err(BadGeneration(g)) || r == Err(Io)
      ensures FewerFinals(old(disk), disk)
      ensures r == Err(Io) ==> Fallible()
      ensures CommitCount(disk.log) <= CommitCount(old(disk).log) + 1
      ensures SameRuns(old(disk), disk)
      ensures r.Ok? ==> RecordDurable(disk)
    {
      hide CommitCount, Unsynced, Images, RunRecords, RecordDurable, FewerFinals, Valid, CrashSafe, Later, Grows,
           MayCommit, State, StateWith, SameRefs, NoGarbage, ReadGeneration, SameFinals, OtherRefsSame;
      Unchanged(disk);
      ReadGenerationIs(disk, g);
      var generation := ReadGeneration(disk.view, g);
      if generation.Err? {
        return Err(BadGeneration(g));
      }
      MayCommitInPlace(disk, Record(Some(g), Stopped));
      r := CommitAndCollect(Record(Some(g), Stopped), pinned);
    }

    /** Publishes `files` as a new generation and makes it the saved state. */
    method SaveNew(files: Files, parent: Option<GenerationId>, origin: Origin, pinned: set<GenerationId>)
      returns (r: Outcome<GenerationId>)
      requires Valid(disk) && RecordOf(disk.view).Some? && !origin.Snapshot?
      modifies this
      ensures CrashSafe(disk) && Later(old(disk), disk)
      ensures disk.journaled || r != Err(Io) ==> Valid(disk)
      ensures r.Ok? ==> SavedAs(old(disk), disk, Payload(files)) && NoGarbage(disk.view, pinned)
      ensures r.Ok? ==> RecordOf(disk.view) == Some(Record(Some(r.value), Stopped)) && RecordedAs(disk.ledger, r.value, parent, origin)
      ensures r.Ok? ==> ROOTFS in ManifestFiles(files)
      ensures r.Err? ==>
                || (r == Err(Io) && SavedAs(old(disk), disk, Payload(files)))
                || (State(disk) == State(old(disk)) && RecordOf(disk.view) == RecordOf(old(disk).view) && SameFinals(old(disk), disk))
      ensures r.Err? ==> r == Err(Io) || r == Err(NoRootfs)
      ensures r == Err(NoRootfs) ==> ROOTFS !in ManifestFiles(files)
      ensures SameRefs(old(disk).view, disk.view)
      ensures FewerFinals(old(disk), disk)
      ensures r == Err(Io) ==> Fallible()
      ensures CommitCount(disk.log) <= CommitCount(old(disk).log) + 1
      ensures SameRuns(old(disk), disk)
      ensures OnlyAdds(old(disk).ledger, disk.ledger, files)
      ensures r.Ok? ==> RecordDurable(disk)
    {
      hide CommitCount, Unsynced, Images, RunRecords, RecordDurable, FewerFinals, Valid, CrashSafe, Later, Grows,
           NoGarbage, CommitOutcome, SavedAs, OnlyAdds, Payload, ManifestFiles, SameRefs, State, SameFinals,
           PublishedFiles, OtherRefsSame, RecordedAs;
      var n := NewGeneration(files, parent, origin);
      ghost var d1 := disk;
      AddsOne(old(disk), d1, d1, parent, origin, files);
      if n.Err? {
        return n;
      }
      var w := CommitLatest(n.value, pinned);
      Then(old(disk), d1, disk);
      AddsOne(old(disk), d1, disk, parent, origin, files);
      SavedNew(old(disk), d1, disk, parent, origin, files, w.Ok?);
      if w.Err? {
        return Err(Io);
      }
      CommittedRecord(d1, disk, Record(Some(n.value), Stopped));
      RecordedStays(d1.ledger, disk.ledger, n.value, parent, origin);
      r := n;
    }

    /** Creates a store whose first generation comes from a staging directory
        (src/store.rs:517-527). */
    method Initialize(g: GenerationId, ghost files: Files, pinned: set<GenerationId>) returns (r: Outcome<GenerationId>)
      requires Valid(disk) && Staged(disk, g) && ChildrenAre(disk.view, g, files)
      modifies this
      ensures CrashSafe(disk) && Later(old(disk), disk)
      ensures disk.journaled || r != Err(Io) ==> Valid(disk)
      ensures SameRefs(old(disk).view, disk.view)
      ensures r == Err(AlreadyExists) <==> RecordOf(old(disk).view).Some?
      ensures r == Err(AlreadyExists) ==> disk == old(disk)
      ensures r.Ok? ==> State(disk) == Some(Instance(Some(Payload(files)), Checkpoints(old(disk)), None))
      ensures r.Ok? ==>
                r.value == g && RecordOf(disk.view) == Some(Record(Some(g), Stopped)) && RecordedAs(disk.ledger, g, None, Image)
      ensures r.Err? && r != Err(AlreadyExists) ==>
                State(disk) == None || State(disk) == Some(Instance(Some(Payload(files)), Checkpoints(old(disk)), None))
      ensures r == Err(NoRootfs) <==> RecordOf(old(disk).view).None? && ROOTFS !in ManifestFiles(files)
      ensures r.Err? ==> r == Err(Io) || r == Err(AlreadyExists) || r == Err(NoRootfs)
      ensures r == Err(Io) ==> Fallible()
      ensures CommitCount(disk.log) <= CommitCount(old(disk).log) + 1
      ensures SameRuns(old(disk), disk)
      ensures OnlyAdds(old(disk).ledger, disk.ledger, files)
      ensures r.Ok? ==> RecordDurable(disk)
    {
      hide FewerFinals, SameFinals, OtherRefsSame, OnlyAdds, CommitCount, Unsynced, Images, RunRecords, RecordDurable,
           Valid, CrashSafe, Later, Grows, Only, Staged, ChildrenAre, State, SameRefs, Payload, PublishedFiles,
           Checkpoints, ManifestFiles, MayCommit, RecordOf, RecordedAs;
      Unchanged(disk);
      AddsNothing(disk.ledger, disk.ledger);
      if RecordOf(disk.view).Some? {
        return Err(AlreadyExists);
      }
      r := Publish(g, None, Image, files);
      ghost var d1 := disk;
      AddsImage(old(disk).ledger, d1.ledger, d1.ledger, g, files);
      StagedState(old(disk), disk, g);
      NoRecordNoState(disk);
      if r.Err? {
        return;
      }
      var rec := Record(Some(g), Stopped);
      MayCommitInPlace(disk, rec);
      var w := CommitRecord(rec);
      Then(old(disk), d1, disk);
      OnlyKeeps(InRecord, d1.view, disk.view);
      CheckpointsKept(old(disk), d1);
      PublishKeepsPayload(g, None, Image, files);
      AddsImage(old(disk).ledger, d1.ledger, disk.ledger, g, files);
      RecordedPublished(disk.ledger, g, None, Image, files);
      if RecordOf(disk.view) == Some(rec) {
        CommitState(d1, disk, rec);
      } else {
        NoRecordNoState(disk);
      }
      if w.Err? {
        return Err(Io);
      }
    }

    /** What a run from `from`, or else from the saved state, is to be given. */
    method ReadBase(from: Option<GenerationId>) returns (r: Outcome<Files>)
      requires Valid(disk) && RecordOf(disk.view).Some?
      ensures r.Ok? ==> r.value == BaseFiles(disk, from) && (from.Some? ==> IsInPlace(disk.view, from.value))
      ensures r.Err? ==> from.Some? && !IsInPlace(disk.view, from.value) && r == Err(BadGeneration(from.value))
    {
      hide Valid, CrashSafe, ReadGeneration, ChildrenAre, Children, WellFormed, Payload, RecordOf;
      var base := if from.Some? then from else RecordOf(disk.view).value.latest;
      if base.None? {
        return Ok(map[]);
      }
      ReadGenerationIs(disk, base.value);
      if from.None? {
        LatestIsInPlace(disk);
      }
      var generation := ReadGeneration(disk.view, base.value);
      if generation.Err? {
        return Err(BadGeneration(base.value));
      }
      ChildrenIs(disk.view, base.value, disk.ledger.published[base.value]);
      r := Ok(Payload(Children(disk.view, base.value)));
    }

    /** On a stopped instance, opens a clean run whose disk is a private copy of its base,
        synced before the record names it (src/store.rs:593-629). */
    method BeginRun(from: Option<GenerationId>) returns (r: Outcome<RunId>)
      requires Valid(disk)
      modifies this
      ensures CrashSafe(disk) && Later(old(disk), disk)
      ensures disk.journaled || r != Err(Io) ==> Valid(disk)
      ensures SameRefs(old(disk).view, disk.view) && disk.ledger.published == old(disk).ledger.published
      ensures r == Err(NoState) <==> RecordOf(old(disk).view).None?
      ensures r == Err(NotStopped) <==> RecordOf(old(disk).view).Some? && RecordOf(old(disk).view).value.phase != Stopped
      ensures r.Err? && r != Err(Io) ==> disk == old(disk)
      ensures (r.Ok? || r == Err(Io)) && from.Some? ==> IsInPlace(old(disk).view, from.value)
      ensures r.Ok? ==> Began(old(disk), disk, from, r.value) && RunsOn(old(disk), disk, from)
      ensures r == Err(Io) ==>
                || (State(disk) == State(old(disk)) && RecordOf(disk.view) == RecordOf(old(disk).view))
                || exists run :: Began(old(disk), disk, from, run)
      ensures r.Err? && r != Err(Io) && r != Err(NoState) && r != Err(NotStopped) ==>
                from.Some? && !IsInPlace(old(disk).view, from.value) && r == Err(BadGeneration(from.value))
      ensures FewerFinals(old(disk), disk)
      ensures r == Err(Io) ==> Fallible()
      ensures CommitCount(disk.log) <= CommitCount(old(disk).log) + 1
      ensures Images(disk.view) - {old(disk).ledger.nextRun} == Images(old(disk).view) - {old(disk).ledger.nextRun}
      ensures RecordOf(old(disk).view).Some? ==>
                || ImageOn(disk.view, old(disk).ledger.nextRun) == []
                || ImageOn(disk.view, old(disk).ledger.nextRun) == FilesImage(BaseFiles(old(disk), from))
      ensures RecordOf(old(disk).view).Some? ==>
                RunRecords(disk.ledger.records) <=
                  RunRecords(old(disk).ledger.records) + {(old(disk).ledger.nextRun, RecordOf(old(disk).view).value.latest)}
      ensures r.Ok? ==> RecordDurable(disk)
      ensures RecordOf(old(disk).view).Some? ==>
                NamedOnceSynced(old(disk), disk, old(disk).ledger.nextRun, FilesImage(BaseFiles(old(disk), from)))
    {
      hide NamedOnceSynced, ImageOn, FilesImage, CommitCount, Unsynced, Images, RunRecords, RecordDurable, FewerFinals,
           Valid, CrashSafe, Later, Grows, Only, State, StateWith, SameRefs, Payload, BaseFiles, RunChildrenAre,
           RunComplete, RunSettled, Pending, Began, ReadGeneration, MayCommit, ChildrenAre, Children, WellFormed,
           RecordOf, SameFinals, OtherRefsSame, RunsOn;
      Unchanged(disk);
      FreshImage(disk);
      ghost var image := FilesImage(if RecordOf(disk.view).Some? then BaseFiles(disk, from) else map[]);
      NeverNamed(disk, disk, disk.ledger.nextRun, image);
      var record := RecordOf(disk.view);
      if record.None? {
        return Err(NoState);
      }
      if record.value.phase != Stopped {
        return Err(NotStopped);
      }
      var base := ReadBase(from);
      if base.Err? {
        return Err(base.error);
      }
      var files := base.value;
      var run := PrepareRun(files);
      ghost var d1 := disk;
      PreparedState(old(disk), disk);
      PreparingAddsNoFinals(old(disk), disk);
      NeverNamed(old(disk), disk, old(disk).ledger.nextRun, image);
      if run.Err? {
        return Err(Io);
      }
      CopiedImage(disk, run.value, files);
      var rec := Record(record.value.latest, Running(run.value));
      MayCommitRun(disk, rec);
      var w := CommitRecord(rec);
      ImageIs(d1.view, run.value);
      ImageIs(disk.view, run.value);
      Then(old(disk), d1, disk);
      SyncedThenNamed(old(disk), d1, disk, run.value);
      CommitsKeepFinals(d1, disk);
      OnlyKeeps(InRecord, d1.view, disk.view);
      if RecordOf(disk.view) == Some(rec) {
        CommitState(d1, disk, rec);
        BeganIs(old(disk), d1, disk, from, run.value, files);
      } else {
        RecordKeptState(d1, disk);
      }
      if w.Err? {
        return Err(Io);
      }
      BeganMeans(old(disk), disk, from, run.value);
      r := run;
    }

    /** The open run is dirty afterwards, and stays dirty if it was; any other run is
        refused (src/store.rs:712-729). A second call after one that failed in its last
        sync finds the run dirty and does not sync again. */
    method MarkDirty(run: RunId) returns (r: Outcome<()>)
      requires Valid(disk)
      modifies this
      ensures CrashSafe(disk) && Later(old(disk), disk)
      ensures disk.journaled || r != Err(Io) ==> Valid(disk)
      ensures SameRefs(old(disk).view, disk.view) && disk.ledger.published == old(disk).ledger.published
      ensures r == Err(NoState) <==> RecordOf(old(disk).view).None?
      ensures r == Err(WrongPhase) <==>
                RecordOf(old(disk).view).Some? && RecordOf(old(disk).view).value.phase.Run() != Some(run)
      ensures r.Ok? ==> Dirtied(old(disk), disk, run)
      ensures r.Err? ==>
                || (State(disk) == State(old(disk)) && RecordOf(disk.view) == RecordOf(old(disk).view))
                || (r == Err(Io) && Dirtied(old(disk), disk, run))
      ensures r.Err? ==> r == Err(Io) || r == Err(NoState) || r == Err(WrongPhase)
      ensures r.Err? && r != Err(Io) ==> disk == old(disk)
      ensures FewerFinals(old(disk), disk)
      ensures r == Err(Io) ==> Fallible()
      ensures CommitCount(disk.log) <= CommitCount(old(disk).log) + 1
      ensures SameRuns(old(disk), disk)
      ensures r.Ok? ==> RecordDurable(disk) || disk == old(disk)
    {
      hide CommitCount, Unsynced, Images, RunRecords, RecordDurable, FewerFinals, Valid, CrashSafe, Later, Grows, Only,
           State, StateWith, SameRefs, MayCommit, Dirtied, RecordOf, SameFinals, OtherRefsSame;
      Unchanged(disk);
      var record := RecordOf(disk.view);
      if record.None? {
        return Err(NoState);
      }
      if record.value.phase == Running(run) {
        var rec := Record(record.value.latest, Dirty(run));
        MayCommitLatest(disk, rec);
        RecordedRun(disk);
        r := CommitRecord(rec);
        OnlyKeeps(InRecord, old(disk).view, disk.view);
        CommitsKeepFinals(old(disk), disk);
        if RecordOf(disk.view) == Some(rec) {
          CommitState(old(disk), disk, rec);
          DirtiedIs(old(disk), disk, run);
        } else {
          RecordKeptState(old(disk), disk);
        }
      } else if record.value.phase == Dirty(run) {
        DirtiedAlready(disk, run);
        r := Ok(());
      } else {
        r := Err(WrongPhase);
      }
    }

    /** The saved state moves to `g` under an open run (src/store.rs:636-653): the phase,
        and so what a crash means, stays. */
    method AdvanceLatest(run: RunId, g: GenerationId) returns (r: Outcome<()>)
      requires Valid(disk)
      modifies this
      ensures CrashSafe(disk) && Later(old(disk), disk)
      ensures disk.journaled || r != Err(Io) ==> Valid(disk)
      ensures SameRefs(old(disk).view, disk.view) && disk.ledger.published == old(disk).ledger.published
      ensures r == Err(BadGeneration(g)) <==> !IsInPlace(old(disk).view, g)
      ensures r == Err(NoState) <==> IsInPlace(old(disk).view, g) && RecordOf(old(disk).view).None?
      ensures r == Err(WrongPhase) <==>
                IsInPlace(old(disk).view, g) && RecordOf(old(disk).view).Some? && RecordOf(old(disk).view).value.phase.Run() != Some(run)
      ensures r.Err? ==> r == Err(Io) || r == Err(BadGeneration(g)) || r == Err(NoState) || r == Err(WrongPhase)
      ensures r.Ok? ==> Advanced(old(disk), disk, run, g)
      ensures r.Err? ==>
                || (State(disk) == State(old(disk)) && RecordOf(disk.view) == RecordOf(old(disk).view))
                || (r == Err(Io) && Advanced(old(disk), disk, run, g))
      ensures r.Err? && r != Err(Io) ==> disk == old(disk)
      ensures FewerFinals(old(disk), disk)
      ensures r == Err(Io) ==> Fallible()
      ensures CommitCount(disk.log) <= CommitCount(old(disk).log) + 1
      ensures Images(disk.view) == Images(old(disk).view)
      ensures RunRecords(disk.ledger.records) <= RunRecords(old(disk).ledger.records) + {(run, Some(g))}
      ensures r.Ok? ==> RecordDurable(disk)
    {
      hide CommitCount, Unsynced, Images, RunRecords, RecordDurable, FewerFinals, Valid, CrashSafe, Later, Grows, Only,
           State, StateWith, SameRefs, MayCommit, Advanced, RecordOf, ReadGeneration, WellFormed, ChildrenAre,
           SameFinals, OtherRefsSame;
      Unchanged(disk);
      ReadGenerationIs(disk, g);
      var generation := ReadGeneration(disk.view, g);
      if generation.Err? {
        return Err(BadGeneration(g));
      }
      var record := RecordOf(disk.view);
      if record.None? {
        return Err(NoState);
      }
      if record.value.phase.Run() != Some(run) {
        return Err(WrongPhase);
      }
      var rec := Record(Some(g), record.value.phase);
      MayCommitInPlace(disk, rec);
      r := CommitRecord(rec);
      OnlyKeeps(InRecord, old(disk).view, disk.view);
      CommitsKeepFinals(old(disk), disk);
      if RecordOf(disk.view) == Some(rec) {
        CommitState(old(disk), disk, rec);
        AdvancedIs(old(disk), disk, run, g);
      } else {
        RecordKeptState(old(disk), disk);
      }
    }

    /** Closes a clean run and leaves the saved state alone; a dirty run is refused
        (src/store.rs:733-741). */
    method AbandonRun(run: RunId, pinned: set<GenerationId>) returns (r: Outcome<()>)
      requires Valid(disk)
      modifies this
      ensures CrashSafe(disk) && Later(old(disk), disk)
      ensures disk.journaled || r != Err(Io) ==> Valid(disk)
      ensures SameRefs(old(disk).view, disk.view) && disk.ledger.published == old(disk).ledger.published
      ensures r == Err(NoState) <==> RecordOf(old(disk).view).None?
      ensures r == Err(WrongPhase) <==>
                RecordOf(old(disk).view).Some? && RecordOf(old(disk).view).value.phase != Running(run)
      ensures r.Ok? ==> Closed(old(disk), disk) && NoGarbage(disk.view, pinned)
      ensures r.Err? ==>
                || (State(disk) == State(old(disk)) && RecordOf(disk.view) == RecordOf(old(disk).view) && SameFinals(old(disk), disk))
                || (r == Err(Io) && Closed(old(disk), disk))
      ensures r.Err? ==> r == Err(Io) || r == Err(NoState) || r == Err(WrongPhase)
      ensures r.Err? && r != Err(Io) ==> disk == old(disk)
      ensures FewerFinals(old(disk), disk)
      ensures r == Err(Io) ==> Fallible()
      ensures CommitCount(disk.log) <= CommitCount(old(disk).log) + 1
      ensures SameRuns(old(disk), disk)
      ensures r.Ok? ==> RecordDurable(disk)
    {
      hide CommitCount, Unsynced, Images, RunRecords, RecordDurable, FewerFinals, Valid, CrashSafe, Later, Grows, State,
           StateWith, SameRefs, MayCommit, Closed, RecordOf, NoGarbage, Only, SameFinals, OtherRefsSame;
      Unchanged(disk);
      var record := RecordOf(disk.view);
      if record.None? {
        return Err(NoState);
      }
      if record.value.phase != Running(run) {
        return Err(WrongPhase);
      }
      var rec := Record(record.value.latest, Stopped);
      MayCommitLatest(disk, rec);
      r := CommitAndCollect(rec, pinned);
      ClosedIs(old(disk), disk);
    }

    /** Closes a dirty run and leaves the saved state alone; any other phase is refused
        (src/store.rs:834-843). */
    method DiscardRun(pinned: set<GenerationId>) returns (r: Outcome<RunId>)
      requires Valid(disk)
      modifies this
      ensures CrashSafe(disk) && Later(old(disk), disk)
      ensures disk.journaled || r != Err(Io) ==> Valid(disk)
      ensures SameRefs(old(disk).view, disk.view) && disk.ledger.published == old(disk).ledger.published
      ensures r == Err(NoState) <==> RecordOf(old(disk).view).None?
      ensures r == Err(WrongPhase) <==>
                RecordOf(old(disk).view).Some? && !RecordOf(old(disk).view).value.phase.Dirty?
      ensures r.Ok? ==> RecordOf(old(disk).view).value.phase == Dirty(r.value) && Closed(old(disk), disk) && NoGarbage(disk.view, pinned)
      ensures r.Err? ==>
                || (State(disk) == State(old(disk)) && RecordOf(disk.view) == RecordOf(old(disk).view) && SameFinals(old(disk), disk))
                || (r == Err(Io) && Closed(old(disk), disk))
      ensures r.Err? ==> r == Err(Io) || r == Err(NoState) || r == Err(WrongPhase)
      ensures r.Err? && r != Err(Io) ==> disk == old(disk)
      ensures FewerFinals(old(disk), disk)
      ensures r == Err(Io) ==> Fallible()
      ensures CommitCount(disk.log) <= CommitCount(old(disk).log) + 1
      ensures SameRuns(old(disk), disk)
      ensures r.Ok? ==> RecordDurable(disk)
    {
      hide CommitCount, Unsynced, Images, RunRecords, RecordDurable, FewerFinals, Valid, CrashSafe, Later, Grows, State,
           StateWith, SameRefs, MayCommit, Closed, RecordOf, NoGarbage, Only, SameFinals, OtherRefsSame;
      Unchanged(disk);
      var record := RecordOf(disk.view);
      if record.None? {
        return Err(NoState);
      }
      if !record.value.phase.Dirty? {
        return Err(WrongPhase);
      }
      var rec := Record(record.value.latest, Stopped);
      MayCommitLatest(disk, rec);
      var w := CommitAndCollect(rec, pinned);
      ClosedIs(old(disk), disk);
      if w.Err? {
        return Err(Io);
      }
      r := Ok(record.value.phase.run);
    }

    /** The saved state becomes what is on the dirty run's disk, and the run is closed
        (src/store.rs:811-831). Interrupted before its commit, it leaves the run
        dirty and recovery's choice unchanged, so it can be repeated. */
    method Salvage(pinned: set<GenerationId>) returns (r: Outcome<GenerationId>)
      requires Valid(disk)
      modifies this
      ensures CrashSafe(disk) && Later(old(disk), disk)
      ensures disk.journaled || r != Err(Io) ==> Valid(disk)
      ensures SameRefs(old(disk).view, disk.view)
      ensures r == Err(NoState) <==> RecordOf(old(disk).view).None?
      ensures r == Err(WrongPhase) <==>
                RecordOf(old(disk).view).Some? && !RecordOf(old(disk).view).value.phase.Dirty?
      ensures r.Ok? ==> Salvaged(old(disk), disk) && NoGarbage(disk.view, pinned)
      ensures r.Ok? ==>
                && State(old(disk)).Some? && State(old(disk)).value.open.Some? && State(disk).Some? && State(disk).value.current.Some?
                && IsDiskOf(State(disk).value.current.value, State(old(disk)).value.open.value.files)
      ensures r.Ok? ==>
                && RecordOf(old(disk).view).Some? && RecordOf(disk.view) == Some(Record(Some(r.value), Stopped))
                && var was := RecordOf(old(disk).view).value;
                   was.phase.Dirty? && RecordedAs(disk.ledger, r.value, was.latest, Origin.Salvage(was.phase.run))
      ensures r.Err? ==>
                || (State(disk) == State(old(disk)) && RecordOf(disk.view) == RecordOf(old(disk).view) && SameFinals(old(disk), disk))
                || (r == Err(Io) && Salvaged(old(disk), disk))
      ensures r.Err? ==> r == Err(Io) || r == Err(NoState) || r == Err(WrongPhase) || r == Err(NoRootfs)
      ensures r == Err(NoRootfs) ==> !HasRootfs(RunFiles(old(disk), RecordOf(old(disk).view).value.phase.run))
      ensures r.Ok? ==> HasRootfs(RunFiles(old(disk), RecordOf(old(disk).view).value.phase.run))
      ensures FewerFinals(old(disk), disk)
      ensures r == Err(Io) ==> Fallible()
      ensures CommitCount(disk.log) <= CommitCount(old(disk).log) + 1
      ensures SameRuns(old(disk), disk)
      ensures RecordOf(old(disk).view).Some? && RecordOf(old(disk).view).value.phase.Dirty? ==>
                OnlyAdds(old(disk).ledger, disk.ledger, DiskOnly(Abs(old(disk)).open.value.files))
      ensures r == Err(NoState) || r == Err(WrongPhase) ==> disk == old(disk)
      ensures r.Ok? ==> RecordDurable(disk)
    {
      hide CommitCount, Unsynced, Images, RunRecords, RecordDurable, FewerFinals, Valid, CrashSafe, Later, Grows, State,
           SameRefs, Salvaged, RecordOf, NoGarbage, SavedAs, OnlyAdds, Abs, ManifestFiles, Payload, DiskOnly, RunFiles,
           SameFinals, OtherRefsSame, RecordedAs, IsDiskOf;
      Unchanged(disk);
      AddsNothing(disk.ledger, disk.ledger);
      var record := RecordOf(disk.view);
      if record.None? {
        return Err(NoState);
      }
      if !record.value.phase.Dirty? {
        return Err(WrongPhase);
      }
      var run := record.value.phase.run;
      var files := DiskOnly(RunFiles(disk, run));
      DiskOnlyRootfs(RunFiles(disk, run));
      if !HasRootfs(files) {
        var staged := Stage();
        StagedState(old(disk), disk, old(disk).ledger.nextGen);
        NextNotInPlace(old(disk));
        StagingKeepsFinals(old(disk), disk, old(disk).ledger.nextGen);
        AddsNothing(old(disk).ledger, disk.ledger);
        return Err(if staged.Ok? then NoRootfs else Io);
      }
      RootfsListed(files);
      r := SaveNew(files, record.value.latest, Origin.Salvage(run), pinned);
      SalvagedIs(old(disk), disk, run);
      OpenFiles(old(disk), run);
      if r.Ok? { SalvagedMeans(old(disk), disk); }
    }

    /** The saved state loses its memory files and nothing else; without any it stays as
        it is (src/store.rs:891-916). */
    method DropMemory(pinned: set<GenerationId>) returns (r: Outcome<Option<GenerationId>>)
      requires Valid(disk)
      modifies this
      ensures CrashSafe(disk) && Later(old(disk), disk)
      ensures disk.journaled || r != Err(Io) ==> Valid(disk)
      ensures SameRefs(old(disk).view, disk.view)
      ensures r == Err(NoState) <==> RecordOf(old(disk).view).None?
      ensures r == Err(NotStopped) <==> RecordOf(old(disk).view).Some? && RecordOf(old(disk).view).value.phase != Stopped
      ensures r == Ok(None) ==> disk == old(disk) && !HasMemory(old(disk))
      ensures r.Ok? && r.value.Some? ==> HasMemory(old(disk)) && MemoryDropped(old(disk), disk) && NoGarbage(disk.view, pinned)
      ensures r.Ok? && r.value.Some? ==>
                && State(old(disk)).Some? && State(old(disk)).value.current.Some? && State(disk).Some? && State(disk).value.current.Some?
                && IsDiskOf(State(disk).value.current.value, State(old(disk)).value.current.value)
      ensures r.Ok? && r.value.Some? ==>
                && RecordOf(old(disk).view).Some? && RecordOf(disk.view) == Some(Record(r.value, Stopped))
                && RecordedAs(disk.ledger, r.value.value, RecordOf(old(disk).view).value.latest, Origin.DropMemory)
      ensures r.Err? ==>
                || (State(disk) == State(old(disk)) && RecordOf(disk.view) == RecordOf(old(disk).view))
                || (r == Err(Io) && HasMemory(old(disk)) && MemoryDropped(old(disk), disk))
      ensures r.Err? ==> r == Err(Io) || r == Err(NoState) || r == Err(NotStopped)
      ensures FewerFinals(old(disk), disk)
      ensures r == Err(Io) ==> Fallible()
      ensures CommitCount(disk.log) <= CommitCount(old(disk).log) + 1
      ensures SameRuns(old(disk), disk)
      ensures RecordOf(old(disk).view).Some? && RecordOf(old(disk).view).value.latest.Some? ==>
                OnlyAdds(old(disk).ledger, disk.ledger, DiskOnly(Abs(old(disk)).current.value))
      ensures RecordOf(old(disk).view).None? || RecordOf(old(disk).view).value.latest.None? ==> disk == old(disk)
      ensures r.Ok? && r.value.Some? ==> RecordDurable(disk)
    {
      hide CommitCount, Unsynced, Images, RunRecords, RecordDurable, FewerFinals, Valid, CrashSafe, Later, Grows, State,
           SameRefs, MemoryDropped, NoGarbage, SavedAs, OnlyAdds, Abs, ManifestFiles, Payload, DiskOnly, SameFinals,
           ReadGeneration, WellFormed, ChildrenAre, Children, RecordOf, OtherRefsSame, RecordedAs, IsDiskOf;
      Unchanged(disk);
      AddsNothing(disk.ledger, disk.ledger);
      var record := RecordOf(disk.view);
      if record.None? {
        return Err(NoState);
      }
      if record.value.phase != Stopped {
        return Err(NotStopped);
      }
      if record.value.latest.None? {
        NoLatestNoMemory(disk);
        return Ok(None);
      }
      var latest := record.value.latest.value;
      LatestIsInPlace(disk);
      ReadGenerationIs(disk, latest);
      ChildrenIs(disk.view, latest, disk.ledger.published[latest]);
      LatestMemory(disk, latest);
      var generation := ReadGeneration(disk.view, latest);
      if !generation.value.HasMemory() {
        return Ok(None);
      }
      var files := DiskOnly(Children(disk.view, latest));
      var n := SaveNew(files, Some(latest), Origin.DropMemory, pinned);
      CurrentFiles(old(disk), latest);
      DiskOnlyOfPayload(old(disk).ledger.published[latest]);
      MemoryDroppedIs(old(disk), disk, latest);
      if n.Err? {
        return Err(n.error);
      }
      DroppedMeans(old(disk), disk, latest);
      r := Ok(Some(n.value));
    }

    /** Edits of a staging directory holding a copy of `latest` (src/store.rs:870). */
    method ApplyEdits(g: GenerationId, edits: seq<Edit>, files: Files) returns (r: Outcome<()>)
      requires Valid(disk) && Staged(disk, g) && ChildrenAre(disk.view, g, files)
      modifies this
      ensures Valid(disk) && Later(old(disk), disk) && disk.ledger == old(disk).ledger
      ensures Only(InGen(g), old(disk).view, disk.view) && Staged(disk, g)
      ensures r.Ok? ==> ChildrenAre(disk.view, g, AfterEdits(files, edits))
      ensures r.Err? ==> r == Err(Io)
      ensures r == Err(Io) ==> Fallible()
      ensures CommitCount(disk.log) == CommitCount(old(disk).log)
      ensures Unsynced(disk.log) == Unsynced(old(disk).log) && SameRuns(old(disk), disk)
    {
      hide CommitCount, Unsynced, Images, RunRecords, RecordDurable, Valid, Later, Grows, Only, Staged, ChildrenAre,
           AfterEdits, SameRefs, FewerFinals, SameFinals, OtherRefsSame;
      Unchanged(disk);
      EditedNone(files, edits);
      for k := 0 to |edits|
        invariant Valid(disk) && Later(old(disk), disk) && disk.ledger == old(disk).ledger
        invariant CommitCount(disk.log) == CommitCount(old(disk).log)
        invariant Unsynced(disk.log) == Unsynced(old(disk).log) && SameRuns(old(disk), disk)
        invariant Only(InGen(g), old(disk).view, disk.view) && Staged(disk, g)
        invariant ChildrenAre(disk.view, g, AfterEdits(files, edits[..k]))
      {
        ghost var before := disk;
        EditedStep(files, edits, k);
        var w;
        match edits[k] {
          case PutFile(n, c) =>
            w := WriteChild(g, n, c, AfterEdits(files, edits[..k]));
          case RemoveFile(n) =>
            w := RemoveChild(g, n, AfterEdits(files, edits[..k]));
        }
        Then(old(disk), before, disk);
        if w.Err? {
          return Err(Io);
        }
      }
      assert edits[..|edits|] == edits;
      r := Ok(());
    }

    method RemoveChild(g: GenerationId, n: Name, ghost files: Files) returns (r: Outcome<()>)
      requires Valid(disk) && Staged(disk, g) && ChildrenAre(disk.view, g, files)
      modifies this
      ensures Valid(disk) && Later(old(disk), disk) && disk.ledger == old(disk).ledger
      ensures Only(InGen(g), old(disk).view, disk.view) && Staged(disk, g)
      ensures r.Ok? ==> ChildrenAre(disk.view, g, files - {n})
      ensures r.Err? ==> r == Err(Io)
      ensures r == Err(Io) ==> Fallible()
      ensures CommitCount(disk.log) == CommitCount(old(disk).log)
      ensures Unsynced(disk.log) == Unsynced(old(disk).log) && SameRuns(old(disk), disk)
    {
      hide CommitCount, Unsynced, Images, RunRecords, RecordDurable, Valid, Later, Grows, Only, Staged, ChildrenAre,
           SameRefs, FewerFinals, SameFinals, OtherRefsSame;
      Unchanged(disk);
      UnlinkSteps(disk, g, n, files);
      r := Write(GenName(g, n), Absent, disk.ledger);
    }

    /** The saved state becomes an edited copy of itself (src/store.rs:847-874). `editOk` is
        whether the caller's edit reports success. */
    method Derive(edits: seq<Edit>, editOk: bool, pinned: set<GenerationId>) returns (r: Outcome<GenerationId>)
      requires Valid(disk)
      modifies this
      ensures CrashSafe(disk) && Later(old(disk), disk)
      ensures disk.journaled || r != Err(Io) ==> Valid(disk)
      ensures SameRefs(old(disk).view, disk.view)
      ensures r == Err(NoState) <==> RecordOf(old(disk).view).None?
      ensures r == Err(NotStopped) <==> RecordOf(old(disk).view).Some? && RecordOf(old(disk).view).value.phase != Stopped
      ensures r == Err(NoSavedState) <==>
                RecordOf(old(disk).view).Some? && RecordOf(old(disk).view).value == Record(None, Stopped)
      ensures r.Ok? ==> editOk && Derived(old(disk), disk, edits) && NoGarbage(disk.view, pinned)
      ensures r.Ok? ==> Abs(old(disk)).current.Some? && ROOTFS in ManifestFiles(AfterEdits(Abs(old(disk)).current.value, edits))
      ensures r.Ok? ==>
                && RecordOf(old(disk).view).Some? && RecordOf(disk.view) == Some(Record(Some(r.value), Stopped))
                && RecordedAs(disk.ledger, r.value, RecordOf(old(disk).view).value.latest, Origin.Edited)
      ensures r.Err? ==>
                || (State(disk) == State(old(disk)) && RecordOf(disk.view) == RecordOf(old(disk).view))
                || (r == Err(Io) && editOk && Derived(old(disk), disk, edits))
      ensures r.Err? ==>
                || r == Err(Io) || r == Err(NoState) || r == Err(NotStopped) || r == Err(NoSavedState)
                || (r == Err(EditFailed) && !editOk)
                || (r == Err(NoRootfs) && ROOTFS !in ManifestFiles(AfterEdits(Abs(old(disk)).current.value, edits)))
      ensures FewerFinals(old(disk), disk)
      ensures r == Err(Io) ==> Fallible()
      ensures CommitCount(disk.log) <= CommitCount(old(disk).log) + 1
      ensures SameRuns(old(disk), disk)
      ensures RecordOf(old(disk).view).Some? && RecordOf(old(disk).view).value.latest.Some? ==>
                OnlyAdds(old(disk).ledger, disk.ledger, AfterEdits(Abs(old(disk)).current.value, edits))
      ensures RecordOf(old(disk).view).None? || RecordOf(old(disk).view).value.latest.None? ==> disk == old(disk)
      ensures r.Ok? ==> RecordDurable(disk)
    {
      hide CommitCount, Unsynced, Images, RunRecords, RecordDurable, FewerFinals, Valid, CrashSafe, Later, Grows, State,
           SameRefs, Derived, NoGarbage, SavedAs, OnlyAdds, Abs, Payload, CommitOutcome, NewGenerationOf,
           PublishedFiles, ReadGeneration, WellFormed, ChildrenAre, Children, RecordOf, Only, Staged, AfterEdits,
           ManifestFiles, IsInPlace, SameFinals, OtherRefsSame, RecordedAs;
      Unchanged(disk);
      AddsNothing(disk.ledger, disk.ledger);
      var record := RecordOf(disk.view);
      if record.None? {
        return Err(NoState);
      }
      if record.value.phase != Stopped {
        return Err(NotStopped);
      }
      if record.value.latest.None? {
        return Err(NoSavedState);
      }
      var latest := record.value.latest.value;
      LatestIsInPlace(disk);
      ReadGenerationIs(disk, latest);
      ChildrenIs(disk.view, latest, disk.ledger.published[latest]);
      var files := Payload(Children(disk.view, latest));
      var g := disk.ledger.nextGen;
      CurrentFiles(old(disk), latest);
      var staged := StageEdited(files, edits);
      ghost var d1 := disk;
      AddsNothing(old(disk).ledger, d1.ledger);
      NextNotInPlace(old(disk));
      StagedState(old(disk), disk, g);
      StagingKeepsFinals(old(disk), disk, g);
      if staged.Err? {
        return Err(Io);
      }
      if !editOk {
        return Err(EditFailed);
      }
      r := Publish(g, Some(latest), Origin.Edited, AfterEdits(files, edits));
      ghost var d2 := disk;
      Then(old(disk), d1, disk);
      NewGenerationIs(old(disk), disk, Some(latest), Origin.Edited, AfterEdits(files, edits));
      NewGenerationKeeps(old(disk), disk, Some(latest), Origin.Edited, AfterEdits(files, edits));
      AddsOne(old(disk), d2, d2, Some(latest), Origin.Edited, AfterEdits(files, edits));
      if r.Err? {
        return;
      }
      var w := CommitLatest(g, pinned);
      Then(old(disk), d2, disk);
      SavedNew(old(disk), d2, disk, Some(latest), Origin.Edited, AfterEdits(files, edits), w.Ok?);
      AddsOne(old(disk), d2, disk, Some(latest), Origin.Edited, AfterEdits(files, edits));
      DerivedIs(old(disk), disk, edits, latest);
      if w.Err? {
        return Err(Io);
      }
      CommittedRecord(d2, disk, Record(Some(g), Stopped));
      RecordedNew(old(disk), d2, Some(latest), Origin.Edited, AfterEdits(files, edits));
      RecordedStays(d2.ledger, disk.ledger, g, Some(latest), Origin.Edited);
    }

    method StageEdited(files: Files, edits: seq<Edit>) returns (r: Outcome<()>)
      requires Valid(disk)
      modifies this
      ensures Valid(disk) && Later(old(disk), disk) && disk.ledger == NextGen(old(disk).ledger)
      ensures Only(InGen(old(disk).ledger.nextGen), old(disk).view, disk.view)
      ensures r.Ok? ==> Staged(disk, old(disk).ledger.nextGen)
                        && ChildrenAre(disk.view, old(disk).ledger.nextGen, AfterEdits(files, edits))
      ensures r.Err? ==> r == Err(Io)
      ensures r == Err(Io) ==> Fallible()
      ensures CommitCount(disk.log) == CommitCount(old(disk).log)
      ensures Unsynced(disk.log) == Unsynced(old(disk).log) && SameRuns(old(disk), disk)
    {
      hide CommitCount, Unsynced, Images, RunRecords, RecordDurable, Valid, Later, Grows, Only, Staged, ChildrenAre,
           AfterEdits, SameRefs, FewerFinals, SameFinals, OtherRefsSame;
      var s := StageFiles(files);
      ghost var d1 := disk;
      if s.Err? {
        return Err(Io);
      }
      r := ApplyEdits(s.value, edits, files);
      Then(old(disk), d1, disk);
    }

    /** A new generation with the regular files and the share state of a foreign directory;
        the instance does not change (src/store.rs:657-676). */
    method ImportDir(source: Files, parent: Option<GenerationId>, origin: Origin) returns (r: Outcome<GenerationId>)
      requires Valid(disk) && OriginStarted(origin, disk.ledger.nextRun)
      modifies this
      ensures CrashSafe(disk) && Later(old(disk), disk)
      ensures disk.journaled || r != Err(Io) ==> Valid(disk)
      ensures NewGenerationOf(old(disk), disk, parent, origin, Payload(source))
      ensures r.Ok? ==> r.value == old(disk).ledger.nextGen && IsInPlace(disk.view, r.value)
      ensures r.Ok? ==> PublishedPayload(disk.ledger, r.value) == Payload(source)
      ensures r.Ok? ==> RecordedAs(disk.ledger, r.value, parent, origin) && Imported(disk.ledger.published[r.value], source)
      ensures r.Err? ==> r == Err(Io) || (r == Err(NoRootfs) && ROOTFS !in ManifestFiles(Payload(source)))
      ensures r == Err(Io) ==> Fallible()
      ensures CommitCount(disk.log) == CommitCount(old(disk).log)
      ensures Unsynced(disk.log) == Unsynced(old(disk).log) && SameRuns(old(disk), disk)
    {
      hide CommitCount, Unsynced, Images, RunRecords, RecordDurable, Valid, CrashSafe, Later, Grows, PublishedFiles,
           Imported, RecordedAs;
      var files := Payload(source);
      r := NewGeneration(files, parent, origin);
      PayloadIsImported(old(disk).ledger.nextGen, parent, origin, source);
      PublishKeepsPayload(old(disk).ledger.nextGen, parent, origin, files);
      PayloadIsIdempotent(source);
    }

    // ----------------------------------------------------------------- checkpoints

    /** One reference more, to a generation in place (src/store.rs:924-933). */
    method AddCheckpoint(ref: CheckpointRef) returns (r: Outcome<()>)
      requires Valid(disk)
      modifies this
      ensures CrashSafe(disk) && Later(old(disk), disk)
      ensures disk.journaled || r != Err(Io) ==> Valid(disk)
      ensures r == Err(BadGeneration(ref.generation)) <==> !IsInPlace(old(disk).view, ref.generation)
      ensures r.Err? && r != Err(Io) ==> disk == old(disk)
      ensures Only(InRefs, old(disk).view, disk.view) && OtherRefsSame(old(disk).view, disk.view, ref.id)
      ensures disk.ledger.published == old(disk).ledger.published
      ensures r.Ok? ==> RefOf(disk.view, ref.id) == Some(ref) && Checkpointed(old(disk), disk, ref)
      ensures r == Err(Io) ==>
                || (State(disk) == State(old(disk)) && RefOf(disk.view, ref.id) == RefOf(old(disk).view, ref.id))
                || (Checkpointed(old(disk), disk, ref) && RefOf(disk.view, ref.id) == Some(ref))
      ensures r.Err? ==> r == Err(Io) || r == Err(BadGeneration(ref.generation))
      ensures SameFinals(old(disk), disk)
      ensures r == Err(Io) ==> Fallible()
      ensures CommitCount(disk.log) <= CommitCount(old(disk).log) + 1
      ensures SameRuns(old(disk), disk)
      ensures r.Ok? ==> RefDurable(disk, ref.id)
    {
      hide CommitCount, Unsynced, Images, RunRecords, RecordDurable, FewerFinals, Valid, CrashSafe, Later, Grows, Only,
           OtherRefsSame, State, Checkpointed, ReadGeneration, WellFormed, ChildrenAre, RefOf, SameRefs, SameFinals;
      Unchanged(disk);
      ReadGenerationIs(disk, ref.generation);
      var generation := ReadGeneration(disk.view, ref.generation);
      if generation.Err? {
        return Err(BadGeneration(ref.generation));
      }
      r := CommitRef(ref);
      CommitsKeepFinals(old(disk), disk);
      CheckpointedIs(old(disk), disk, ref);
    }

    /** Unlinks a checkpoint reference, then collects garbage (src/store.rs:964-969). */
    method RemoveCheckpoint(c: CheckpointId, pinned: set<GenerationId>) returns (r: Outcome<()>)
      requires Valid(disk)
      modifies this
      ensures CrashSafe(disk) && Later(old(disk), disk)
      ensures disk.journaled || r != Err(Io) ==> Valid(disk)
      ensures r == Err(NoSuchCheckpoint) <==> RefOf(old(disk).view, c).None?
      ensures r == Err(NoSuchCheckpoint) ==> disk == old(disk)
      ensures RecordOf(disk.view) == RecordOf(old(disk).view) && OtherRefsSame(old(disk).view, disk.view, c)
      ensures RefOf(disk.view, c) == RefOf(old(disk).view, c) || RefOf(disk.view, c) == None
      ensures disk.ledger == old(disk).ledger
      ensures r.Ok? ==> RefOf(disk.view, c) == None && Forgotten(old(disk), disk, c) && NoGarbage(disk.view, pinned)
      ensures r.Err? ==> State(disk) == State(old(disk)) || Forgotten(old(disk), disk, c)
      ensures r.Err? ==> r == Err(NoSuchCheckpoint) || r == Err(NoState) || r == Err(Io)
      ensures r == Err(NoState) ==> RecordOf(old(disk).view).None?
      ensures r.Ok? ==> RecordOf(old(disk).view).Some?
      ensures FewerFinals(old(disk), disk)
      ensures forall g :: IsInPlace(old(disk).view, g) && (g in pinned || !Unnamed(disk.view, g)) ==> IsInPlace(disk.view, g)
      ensures r == Err(Io) ==> Fallible()
      ensures CommitCount(disk.log) <= CommitCount(old(disk).log) + 1
      ensures SameRuns(old(disk), disk)
    {
      hide CommitCount, Unsynced, Images, RunRecords, RecordDurable, FewerFinals, Valid, CrashSafe, Later, Grows, Only,
           OtherRefsSame, State, Forgotten, RefOf, RecordOf, NoGarbage, OnlyGarbage, SameRefs, SameFinals, Unnamed;
      Unchanged(disk);
      if RefOf(disk.view, c).None? {
        return Err(NoSuchCheckpoint);
      }
      var w := UnlinkRef(c);
      ghost var d1 := disk;
      ForgottenIs(old(disk), disk, c);
      CommitsKeepFinals(old(disk), disk);
      OnlyKeeps(InRefs, old(disk).view, disk.view);
      if w.Err? {
        return Err(Io);
      }
      r := CollectGarbage(pinned);
      Then(old(disk), d1, disk);
      OtherRefsThen(old(disk).view, d1.view, disk.view, c);
      ForgottenThen(old(disk), d1, disk, c);
      GarbageIsUncommitted(d1.view, disk.view, pinned);
    }

    /** The open run of the instance if it has served a command (src/store.rs:1056-1061),
        whether or not a final snapshot of it is there to roll forward to. */
    method CrashedRun() returns (run: Option<RunId>)
      ensures run.Some? <==> State(disk).Some? && State(disk).value.open.Some? && State(disk).value.open.value.dirty
      ensures run.Some? ==> run.value == State(disk).value.open.value.run
    {
      var record := RecordOf(disk.view);
      run := if record.Some? && record.value.phase.Dirty? then Some(record.value.phase.run) else None;
    }

    /** The VM of `run` writes its disk; `w` identifies the write. */
    method GuestWrites(run: RunId, w: nat)
      requires Valid(disk) && RecordOf(disk.view).Some? && RecordOf(disk.view).value.phase.Run() == Some(run)
      requires Get(disk.view, RunFile(run, ROOTFS)).FileVal? && Get(disk.view, RunFile(run, ROOTFS)).content.Data?
      requires run in disk.ledger.prepared && ROOTFS in disk.ledger.prepared[run]
      modifies this
      ensures Valid(disk) && Later(old(disk), disk) && disk.ledger == old(disk).ledger
      ensures RecordOf(disk.view) == RecordOf(old(disk).view) && SameRefs(old(disk).view, disk.view)
      ensures Wrote(old(disk), disk, run, w) && SameFinals(old(disk), disk)
      ensures CommitCount(disk.log) == CommitCount(old(disk).log)
      ensures Unsynced(disk.log) == Unsynced(old(disk).log)
      ensures Images(disk.view) - {run} == Images(old(disk).view) - {run}
      ensures ImageOn(disk.view, run) == ImageOn(old(disk).view, run) + [w]
      ensures disk == Written(old(disk), RunFile(run, ROOTFS), FileVal(Data(ImageOn(old(disk).view, run) + [w])), old(disk).ledger)
    {
      hide CommitCount, Unsynced, Images, RunRecords, RecordDurable, Valid, Later, Grows, Wrote, SameRefs, SameFinals;
      var content := Data(Get(disk.view, RunFile(run, ROOTFS)).content.writes + [w]);
      RunIsStarted(disk, run);
      GuestWriteIsValid(disk, run, ROOTFS, content);
      WriteKeepsImages(disk.view, RunFile(run, ROOTFS), FileVal(content));
      UnsyncedMore(disk.log, Put(RunFile(run, ROOTFS), FileVal(content)));
      CommitCountMore(disk.log, Put(RunFile(run, ROOTFS), FileVal(content)));
      disk := Written(disk, RunFile(run, ROOTFS), FileVal(content), disk.ledger);
      WroteIs(old(disk), disk, run, w);
    }
  }
}
