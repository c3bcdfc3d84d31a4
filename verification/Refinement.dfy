/**
  The abstract machine, and the store as a refinement of it: every history of store
  operations, each one possibly cut off anywhere, and of power losses in between, is a
  history of the machine in which an operation took effect whole or not at all, and a
  power loss went back to a state since the last one.
 */
module Refinement {
  import opened Layout
  import opened Journal
  import opened StoreModel
  import opened StoreWrites
  import opened Disks
  import opened Garbage
  import opened Instances
  import opened Stores
  import opened CrashTheorems

  // ------------------------------------------------------------ the abstract machine

  /** A saved state on the shelf, and why it was saved. */
  datatype Saved = Saved(files: Files, origin: Origin)

  /** The instance as its user sees it, the checkpoints with or without one, and every
      saved state ever published. */
  datatype Abstract = Abstract(
    instance: Option<Instance>,
    refs: map<CheckpointId, SavedState>,
    shelf: map<GenerationId, Saved>)

  datatype Op =
    | DoInitialize(image: Files)
    | DoRecover
    | DoBegin(from: Option<GenerationId>)
    | DoMarkDirty(run: RunId)
    | DoAdvance(run: RunId, gen: GenerationId)
    | DoAbandon(run: RunId)
    | DoDiscard
    | DoSalvage
    | DoDropMemory
    | DoDerive(edits: seq<Edit>, editOk: bool)
    | DoPublish(files: Files, parent: Option<GenerationId>, origin: Origin)
    | DoCommit(gen: GenerationId)
    | DoAddCheckpoint(ref: CheckpointRef)
    | DoRemoveCheckpoint(id: CheckpointId)
    | DoCollect
    | DoGuestWrite(write: nat)
    | DoLosePower(keep: set<nat>)

  predicate Dirty(i: Instance) { i.open.Some? && i.open.value.dirty }

  predicate Runs(i: Instance, run: RunId) { i.open.Some? && i.open.value.run == run }

  predicate MemoryIn(saved: Option<Files>) {
    && saved.Some? && VMSTATE in saved.value && saved.value[VMSTATE].Data? && PAGES in saved.value && saved.value[PAGES].Data?
  }

  function Stop(i: Instance, files: Files): Instance { i.(current := Some(files), open := None) }

  /** What recovery makes of an instance: a stopped one stays; an interrupted run is
      rolled forward to a final snapshot of its own, or dropped if it never served. */
  ghost predicate Recovers(shelf: map<GenerationId, Saved>, i: Instance, i': Instance) {
    if i.open.None? then i' == i
    else
      || (exists g :: g in shelf && shelf[g].origin == Snapshot(i.open.value.run) && i' == Stop(i, shelf[g].files))
      || (!i.open.value.dirty && i' == i.(open := None))
  }

  /** What the operation does to an instance when it takes effect. */
  ghost predicate Effect(op: Op, shelf: map<GenerationId, Saved>, i: Instance, i': Instance) {
    match op
    case DoInitialize(_) => false
    case DoLosePower(_) => false
    case DoRecover => Recovers(shelf, i, i')
    case DoBegin(from) =>
      && i.open.None? && (from.Some? ==> from.value in shelf) && i'.open.Some?
      && i' == i.(open := Some(OpenRun(i'.open.value.run, false,
           if from.Some? then shelf[from.value].files else if i.current.Some? then i.current.value else map[])))
    case DoMarkDirty(run) => Runs(i, run) && i' == i.(open := Some(i.open.value.(dirty := true)))
    case DoAdvance(run, g) => Runs(i, run) && g in shelf && i' == i.(current := Some(shelf[g].files))
    case DoAbandon(run) => Runs(i, run) && !Dirty(i) && i' == i.(open := None)
    case DoDiscard => Dirty(i) && i' == i.(open := None)
    case DoSalvage => Dirty(i) && i' == Stop(i, DiskOnly(i.open.value.files))
    case DoDropMemory => i.open.None? && i' == if MemoryIn(i.current) then Stop(i, DiskOnly(i.current.value)) else i
    case DoDerive(edits, editOk) =>
      editOk && i.open.None? && i.current.Some? && i' == Stop(i, Payload(AfterEdits(i.current.value, edits)))
    case DoPublish(_, _, _) => i' == i
    case DoCommit(g) => g in shelf && i' == Stop(i, shelf[g].files)
    case DoAddCheckpoint(ref) =>
      ref.generation in shelf
      && i' == i.(checkpoints := i.checkpoints[ref.id := SavedState(ref.name, shelf[ref.generation].files)])
    case DoRemoveCheckpoint(c) => i' == i.(checkpoints := i.checkpoints - {c})
    case DoCollect => i' == i
    case DoGuestWrite(w) =>
      && i.open.Some? && HasRootfs(i.open.value.files)
      && i' == i.(open := Some(i.open.value.(files :=
           i.open.value.files[ROOTFS := Data(i.open.value.files[ROOTFS].writes + [w])])))
  }

  /** What the operation makes where there was no instance. */
  ghost predicate Creates(op: Op, a: Abstract, i: Instance) {
    match op
    case DoInitialize(image) => i == Instance(Some(Payload(image)), a.refs, None)
    case DoCommit(g) => g in a.shelf && i == Instance(Some(a.shelf[g].files), a.refs, None)
    case _ => false
  }

  /** What the operation does to the checkpoints, whether or not there is an instance. */
  ghost predicate RefStep(op: Op, ok: bool, a: Abstract, b: Abstract) {
    match op
    case DoAddCheckpoint(ref) =>
      || (ref.generation in a.shelf && b.refs == a.refs[ref.id := SavedState(ref.name, a.shelf[ref.generation].files)])
      || (!ok && b.refs == a.refs)
    case DoRemoveCheckpoint(c) => b.refs == a.refs - {c} || (!ok && b.refs == a.refs)
    case _ => b.refs == a.refs
  }

  /** A step of the machine: whole if it succeeded, whole or nothing if it did not.
      The shelf only grows, and an instance never disappears. */
  ghost predicate Step(op: Op, ok: bool, a: Abstract, b: Abstract) {
    && RefStep(op, ok, a, b)
    && (forall g :: g in a.shelf ==> g in b.shelf && b.shelf[g] == a.shelf[g])
    && (ok && op.DoPublish? ==> exists g :: g in b.shelf && g !in a.shelf && b.shelf[g] == Saved(Payload(op.files), op.origin))
    && if a.instance.None? then
         && (b.instance.Some? ==> Creates(op, a, b.instance.value))
         && (ok && (op.DoInitialize? || op.DoCommit?) ==> b.instance.Some?)
       else
         && b.instance.Some?
         && (Effect(op, a.shelf, a.instance.value, b.instance.value) || (!ok && b.instance == a.instance))
  }

  /** A power loss: the saved state, the checkpoints and the open run of an earlier
      state, whatever became of that run's disk; nothing leaves the shelf. */
  ghost predicate GoesBack(then': Abstract, last: Abstract, now: Abstract) {
    SameSaved(now.instance, then'.instance) && now.refs == then'.refs && now.shelf == last.shelf
  }

  /** The same saved state, checkpoints and open run, whatever became of that run's disk. */
  ghost predicate SameSaved(a: Option<Instance>, b: Option<Instance>) {
    && (a.Some? <==> b.Some?)
    && (a.Some? ==>
          && a.value.current == b.value.current && a.value.checkpoints == b.value.checkpoints
          && (a.value.open.Some? <==> b.value.open.Some?)
          && (a.value.open.Some? ==> a.value.open.value.(files := map[]) == b.value.open.value.(files := map[])))
  }

  // ------------------------------------------------------------ what a disk stands for

  ghost function Shelf(a: Ledger): map<GenerationId, Saved> {
    map g | g in a.published :: Saved(Payload(a.published[g]), OriginOf(a, g))
  }

  ghost function Spec(d: Disk): Abstract { Abstract(State(d), Checkpoints(d), Shelf(d.ledger)) }

  lemma ShelfGrows(a: Ledger, b: Ledger)
    requires Grows(a, b)
    ensures forall g :: g in Shelf(a) ==> g in Shelf(b) && Shelf(b)[g] == Shelf(a)[g]
  {
    hide Payload;
  }

  lemma OnShelf(d: Disk, g: GenerationId)
    requires Valid(d) && IsInPlace(d.view, g)
    ensures g in Shelf(d.ledger) && Shelf(d.ledger)[g].files == PublishedPayload(d.ledger, g)
  {
    hide Payload, CrashSafe, Settled;
    assert Complete(d.view, d.ledger, g);
  }

  /** The references on disk, before and after the operation. */
  ghost predicate RefsMoved(op: Op, ok: bool, a: Disk, b: Disk) {
    match op
    case DoAddCheckpoint(ref) =>
      && OtherRefsSame(a.view, b.view, ref.id)
      && (|| (ref.generation in a.ledger.published && RefOf(b.view, ref.id) == Some(ref))
          || (!ok && RefOf(b.view, ref.id) == RefOf(a.view, ref.id)))
    case DoRemoveCheckpoint(c) =>
      OtherRefsSame(a.view, b.view, c) && (RefOf(b.view, c) == None || (!ok && RefOf(b.view, c) == RefOf(a.view, c)))
    case _ => SameRefs(a.view, b.view)
  }

  lemma RefsStepped(op: Op, ok: bool, a: Disk, b: Disk)
    requires CrashSafe(a) && Later(a, b) && RefsMoved(op, ok, a, b)
    ensures RefStep(op, ok, Spec(a), Spec(b))
  {
    hide CrashSafe, State, Checkpoints, RefOf, OtherRefsSame, SameRefs, Later, Payload;
    match op {
      case DoAddCheckpoint(ref) =>
        if RefOf(b.view, ref.id) == Some(ref) && ref.generation in a.ledger.published {
          CheckpointsChanged(a, b, ref.id);
        } else {
          RefsAllSame(a.view, b.view, ref.id);
          CheckpointsKept(a, b);
        }
      case DoRemoveCheckpoint(c) =>
        if RefOf(b.view, c) == None {
          CheckpointsChanged(a, b, c);
        } else {
          RefsAllSame(a.view, b.view, c);
          CheckpointsKept(a, b);
        }
      case _ => CheckpointsKept(a, b);
    }
  }

  /** How a step is shown: the shelf grew, and the instance is as before or as after. */
  lemma Stepped(op: Op, ok: bool, a: Disk, b: Disk)
    requires Later(a, b) && !op.DoPublish? && RefStep(op, ok, Spec(a), Spec(b))
    requires State(a).None? && State(b).Some? ==> Creates(op, Spec(a), State(b).value)
    requires State(a).None? && ok && (op.DoInitialize? || op.DoCommit?) ==> State(b).Some?
    requires State(a).Some? ==> State(b).Some?
    requires State(a).Some? ==>
               Effect(op, Shelf(a.ledger), State(a).value, State(b).value) || (!ok && State(b) == State(a))
    ensures Step(op, ok, Spec(a), Spec(b))
  {
    hide State, Checkpoints, Shelf, Effect, Creates, Grows, RefStep;
    ShelfGrows(a.ledger, b.ledger);
  }

  /** A run that served commands ends by an explicit choice, by a commit, or rolled
      forward to a final snapshot of its own, in place when it ended: never by falling
      back silently. This is about the records on disk. */
  ghost predicate EndsExplicitly(op: Op, a: Disk, b: Disk) {
    forall run :: Serves(a, run) && !Serves(b, run) ==>
      || op.DoDiscard? || op.DoSalvage? || op.DoCommit?
      || (op.DoRecover? && exists g :: IsFinal(a, run, g) && RecordOf(b.view) == Some(Record(Some(g), Stopped)))
  }

  predicate Serves(d: Disk, run: RunId) {
    RecordOf(d.view).Some? && RecordOf(d.view).value.phase == Phase.Dirty(run)
  }

  lemma SameRecordEnds(op: Op, a: Disk, b: Disk)
    requires RecordOf(b.view) == RecordOf(a.view) || (RecordOf(a.view).Some? && !RecordOf(a.view).value.phase.Dirty?)
    ensures EndsExplicitly(op, a, b)
  {
  }

  // ------------------------------------------------------------ operation by operation

  lemma RecoverEffect(a: Disk, b: Disk, how: Recovery)
    requires Valid(a) && Recovered(a, b, how)
    ensures State(a).Some? && State(b).Some? && Effect(DoRecover, Shelf(a.ledger), State(a).value, State(b).value)
  {
    hide Valid, CrashSafe, RecordOf, Checkpoints, RunFiles, Payload, Shelf;
    if how.RolledForward? {
      OnShelf(a, how.id);
      FinalOnShelf(a, RecordOf(a.view).value.phase.Run().value, how.id);
    }
  }

  lemma RecoverEnds(a: Disk, b: Disk, how: Recovery)
    requires Recovered(a, b, how)
    ensures EndsExplicitly(DoRecover, a, b)
  {
    hide State, IsFinal;
    assert how.RolledForward? ==> RecordOf(b.view) == Some(Record(Some(how.id), Stopped));
  }

  lemma FinalOnShelf(d: Disk, run: RunId, g: GenerationId)
    requires IsFinal(d, run, g) && g in Shelf(d.ledger)
    ensures Shelf(d.ledger)[g].origin == Snapshot(run)
  {
    hide Payload;
  }

  lemma BeginEffect(a: Disk, b: Disk, from: Option<GenerationId>, run: RunId)
    requires Valid(a) && Began(a, b, from, run) && RecordOf(a.view).value.phase == Stopped
    requires from.Some? ==> IsInPlace(a.view, from.value)
    ensures State(a).Some? && State(b).Some? && Effect(DoBegin(from), Shelf(a.ledger), State(a).value, State(b).value)
  {
    hide Valid, CrashSafe, RecordOf, Checkpoints, RunFiles, Payload, Shelf;
    if from.Some? { OnShelf(a, from.value); }
  }

  lemma AdvanceEffect(a: Disk, b: Disk, run: RunId, g: GenerationId)
    requires Valid(a) && Advanced(a, b, run, g) && IsInPlace(a.view, g)
    ensures State(a).Some? && State(b).Some? && Effect(DoAdvance(run, g), Shelf(a.ledger), State(a).value, State(b).value)
  {
    hide Valid, CrashSafe, RecordOf, Checkpoints, RunFiles, Payload, Shelf;
    OnShelf(a, g);
  }

  lemma CommitEffect(a: Disk, b: Disk, g: GenerationId, ok: bool)
    requires Valid(a) && IsInPlace(a.view, g) && CommitOutcome(a, b, Record(Some(g), Stopped), ok)
    ensures || (!ok && State(b) == State(a))
            || (State(b).Some? && if State(a).Some? then Effect(DoCommit(g), Shelf(a.ledger), State(a).value, State(b).value)
                                  else Creates(DoCommit(g), Spec(a), State(b).value))
  {
    hide Valid, CrashSafe, RecordOf, Checkpoints, RunFiles, Payload, Shelf;
    OnShelf(a, g);
  }

  lemma CheckpointEffect(a: Disk, b: Disk, ref: CheckpointRef)
    requires Valid(a) && Checkpointed(a, b, ref) && IsInPlace(a.view, ref.generation)
    ensures State(a).Some? <==> State(b).Some?
    ensures State(a).Some? ==> Effect(DoAddCheckpoint(ref), Shelf(a.ledger), State(a).value, State(b).value)
  {
    hide Valid, CrashSafe, RecordOf, Checkpoints, RunFiles, Payload, Shelf;
    OnShelf(a, ref.generation);
  }

  lemma ForgetEffect(a: Disk, b: Disk, c: CheckpointId)
    requires Forgotten(a, b, c)
    ensures State(a).Some? <==> State(b).Some?
    ensures State(a).Some? ==> Effect(DoRemoveCheckpoint(c), Shelf(a.ledger), State(a).value, State(b).value)
  {
    hide RecordOf, Checkpoints, RunFiles, Payload, Shelf;
  }

  /** Operations whose effect is on the open run or the saved state alone. */
  lemma RunEffects(a: Disk, b: Disk)
    requires RecordOf(a.view).Some?
    ensures State(a).Some?
    ensures forall run :: Dirtied(a, b, run) ==>
              State(b).Some? && Effect(DoMarkDirty(run), Shelf(a.ledger), State(a).value, State(b).value)
    ensures forall run :: RecordOf(a.view).value.phase == Running(run) && Closed(a, b) ==>
              State(b).Some? && Effect(DoAbandon(run), Shelf(a.ledger), State(a).value, State(b).value)
    ensures RecordOf(a.view).value.phase.Dirty? && Closed(a, b) ==>
              State(b).Some? && Effect(DoDiscard, Shelf(a.ledger), State(a).value, State(b).value)
    ensures Salvaged(a, b) ==> State(b).Some? && Effect(DoSalvage, Shelf(a.ledger), State(a).value, State(b).value)
    ensures RecordOf(a.view).value.phase == Stopped && (if HasMemory(a) then MemoryDropped(a, b) else b == a) ==>
              State(b).Some? && Effect(DoDropMemory, Shelf(a.ledger), State(a).value, State(b).value)
  {
    hide RecordOf, Checkpoints, RunFiles, Payload, Shelf, PublishedPayload;
  }

  lemma DeriveEffect(a: Disk, b: Disk, edits: seq<Edit>)
    requires Derived(a, b, edits) && RecordOf(a.view).value.phase == Stopped
    ensures State(a).Some? && State(b).Some? && Effect(DoDerive(edits, true), Shelf(a.ledger), State(a).value, State(b).value)
  {
    hide RecordOf, Checkpoints, RunFiles, Payload, Shelf, PublishedPayload, AfterEdits;
  }

  lemma WriteEffect(a: Disk, b: Disk, run: RunId, w: nat)
    requires Wrote(a, b, run, w)
    ensures State(a).Some? && State(b).Some? && Effect(DoGuestWrite(w), Shelf(a.ledger), State(a).value, State(b).value)
  {
    hide RecordOf, Checkpoints, RunFiles, Payload, Shelf, PublishedPayload;
  }

  lemma PublishStep(a: Disk, b: Disk, parent: Option<GenerationId>, origin: Origin, files: Files, ok: bool)
    requires CrashSafe(a) && Later(a, b) && NewGenerationOf(a, b, parent, origin, files)
    requires ok ==> IsInPlace(b.view, a.ledger.nextGen)
    ensures Step(DoPublish(files, parent, origin), ok, Spec(a), Spec(b))
  {
    hide CrashSafe, State, Checkpoints, Payload, PublishedFiles, SameRefs, SameFinals, RecordOf, Effect, Creates,
         RefStep;
    RefsStepped(DoPublish(files, parent, origin), ok, a, b);
    ShelfGrows(a.ledger, b.ledger);
    var g := a.ledger.nextGen;
    NextNotInPlace(a);
    PublishKeepsPayload(g, parent, origin, files);
    if State(a).Some? { PublishEffect(files, parent, origin, Shelf(a.ledger), State(a).value); }
    if ok {
      NewOrigin(b.ledger, g, parent, origin, files);
      assert Shelf(b.ledger)[g] == Saved(Payload(files), origin) && g !in Shelf(a.ledger);
    }
  }

  lemma PublishEffect(files: Files, parent: Option<GenerationId>, origin: Origin, shelf: map<GenerationId, Saved>, i: Instance)
    ensures Effect(DoPublish(files, parent, origin), shelf, i, i)
  {
  }

  lemma NewOrigin(b: Ledger, g: GenerationId, parent: Option<GenerationId>, origin: Origin, files: Files)
    requires g in b.published && b.published[g] == PublishedFiles(g, parent, origin, files)
    ensures OriginOf(b, g) == origin
  {
  }

  // ------------------------------------------------------------ histories

  /** A later moment of the same boot, at most one commit point away. */
  ghost predicate Atomic(a: Disk, b: Disk) {
    Later(a, b) && a.journaled && CommitCount(b.log) <= CommitCount(a.log) + 1
  }

  /** The step is shown by saying whether the operation took effect. */
  lemma Took(op: Op, ok: bool, a: Disk, b: Disk, took: bool)
    requires CrashSafe(a) && Later(a, b) && RefsMoved(op, ok, a, b) && !op.DoPublish? && (ok ==> took)
    requires took && State(a).Some? ==> State(b).Some? && Effect(op, Shelf(a.ledger), State(a).value, State(b).value)
    requires took && State(a).None? ==>
               if op.DoInitialize? || op.DoCommit? then State(b).Some? && Creates(op, Spec(a), State(b).value) else State(b).None?
    requires !took ==> State(b) == State(a)
    ensures Step(op, ok, Spec(a), Spec(b))
  {
    hide CrashSafe, RefsMoved, RefStep, State, Checkpoints, Shelf, Effect, Creates, Later, Grows;
    RefsStepped(op, ok, a, b);
    Stepped(op, ok, a, b);
  }

  /** What the store turns down: an operation the instance, or what is in place, does not allow. */
  ghost predicate Refuses(op: Op, d: Disk) {
    var record := RecordOf(d.view);
    match op
    case DoInitialize(image) => record.Some? || ROOTFS !in ManifestFiles(image)
    case DoRecover => record.None? || (record.value.phase.Dirty? && forall g :: !IsFinal(d, record.value.phase.run, g))
    case DoBegin(from) => record.None? || record.value.phase != Stopped || (from.Some? && !IsInPlace(d.view, from.value))
    case DoMarkDirty(run) => record.None? || record.value.phase.Run() != Some(run)
    case DoAdvance(run, g) => record.None? || record.value.phase.Run() != Some(run) || !IsInPlace(d.view, g)
    case DoAbandon(run) => record.None? || record.value.phase != Running(run)
    case DoDiscard => record.None? || !record.value.phase.Dirty?
    case DoSalvage => record.None? || !record.value.phase.Dirty? || !HasRootfs(RunFiles(d, record.value.phase.run))
    case DoDropMemory => record.None? || record.value.phase != Stopped
    case DoDerive(edits, editOk) =>
      || record.None? || record.value.phase != Stopped || record.value.latest.None? || !editOk
      || (Abs(d).current.Some? && ROOTFS !in ManifestFiles(AfterEdits(Abs(d).current.value, edits)))
    case DoPublish(files, _, origin) => !OriginStarted(origin, d.ledger.nextRun) || ROOTFS !in ManifestFiles(files)
    case DoCommit(g) => !IsInPlace(d.view, g)
    case DoAddCheckpoint(ref) => !IsInPlace(d.view, ref.generation)
    case DoRemoveCheckpoint(c) => record.None? || RefOf(d.view, c).None?
    case DoCollect => record.None?
    case DoGuestWrite(_) =>
      record.None? || record.value.phase == Stopped || !HasRootfs(RunFiles(d, record.value.phase.run))
    case DoLosePower(keep) => !Allowed(d.log, keep, true)
  }

  /** What is refused fails, and nothing else does but by a fault. */
  ghost predicate Settled(op: Op, ok: bool, fallible: bool, d: Disk) {
    (Refuses(op, d) ==> !ok) && (!ok ==> fallible || Refuses(op, d))
  }

  method RunRecover(store: Store, pinned: set<GenerationId>) returns (ok: bool)
    requires Valid(store.disk) && store.disk.journaled
    modifies store
    ensures Valid(store.disk) && Atomic(old(store.disk), store.disk)
    ensures Step(DoRecover, ok, Spec(old(store.disk)), Spec(store.disk))
    ensures EndsExplicitly(DoRecover, old(store.disk), store.disk)
    ensures Settled(DoRecover, ok, store.Fallible(), old(store.disk))
  {
    hide CommitCount, Valid, CrashSafe, Later, Grows, State, Shelf, Effect, Step, SameRefs, FewerFinals, NoGarbage,
         RecordOf, Recovered, IsFinal;
    ghost var a := store.disk;
    var r := store.Recover(pinned);
    ghost var b := store.disk;
    ok := r.Ok?;
    ghost var took := r.Ok? || (r == Err(Io) && !(State(b) == State(a) && RecordOf(b.view) == RecordOf(a.view)));
    if took {
      ghost var how :| Recovered(a, b, how);
      RecoverEffect(a, b, how);
      RecoverEnds(a, b, how);
    } else {
      SameRecordEnds(DoRecover, a, b);
    }
    Took(DoRecover, ok, a, b, took);
  }

  method RunBegin(store: Store, from: Option<GenerationId>) returns (ok: bool)
    requires Valid(store.disk) && store.disk.journaled
    modifies store
    ensures Valid(store.disk) && Atomic(old(store.disk), store.disk)
    ensures Step(DoBegin(from), ok, Spec(old(store.disk)), Spec(store.disk))
    ensures EndsExplicitly(DoBegin(from), old(store.disk), store.disk)
    ensures Settled(DoBegin(from), ok, store.Fallible(), old(store.disk))
  {
    hide CommitCount, Valid, CrashSafe, Later, Grows, State, Shelf, Effect, Step, SameRefs, FewerFinals, Began, RecordOf;
    ghost var a := store.disk;
    var r := store.BeginRun(from);
    ghost var b := store.disk;
    ok := r.Ok?;
    ghost var took := r.Ok? || (r == Err(Io) && !(State(b) == State(a) && RecordOf(b.view) == RecordOf(a.view)));
    if took {
      ghost var run :| Began(a, b, from, run);
      BeganIsRunning(a, b, from, run);
      BeginEffect(a, b, from, run);
    }
    SameRecordEnds(DoBegin(from), a, b);
    Took(DoBegin(from), ok, a, b, took);
  }

  /** The operations on an open or crashed run. */
  method RunOnRun(store: Store, op: Op, pinned: set<GenerationId>) returns (ok: bool)
    requires Valid(store.disk) && store.disk.journaled
    requires op.DoMarkDirty? || op.DoAdvance? || op.DoAbandon? || op.DoDiscard? || op.DoSalvage?
    modifies store
    ensures Valid(store.disk) && Atomic(old(store.disk), store.disk)
    ensures Step(op, ok, Spec(old(store.disk)), Spec(store.disk))
    ensures EndsExplicitly(op, old(store.disk), store.disk)
    ensures Settled(op, ok, store.Fallible(), old(store.disk))
  {
    hide CommitCount, Valid, CrashSafe, Later, Grows, State, Shelf, Effect, Step, SameRefs, FewerFinals, SameFinals,
         NoGarbage, RecordOf, Dirtied, Advanced, Closed, Salvaged, IsInPlace, RunFiles, HasRootfs, IsDiskOf, RecordedAs,
         OnlyAdds, DiskOnly, Abs, Images, RunRecords, RecordDurable, Creates;
    ghost var a := store.disk;
    ghost var took := false;
    match op {
      case DoMarkDirty(run) =>
        var r := store.MarkDirty(run);
        ok, took := r.Ok?, r.Ok? || (r == Err(Io) && Dirtied(a, store.disk, run));
        RunKeeps(a, store.disk, op, run);
      case DoAdvance(run, g) =>
        var r := store.AdvanceLatest(run, g);
        ok, took := r.Ok?, r.Ok? || (r == Err(Io) && Advanced(a, store.disk, run, g));
        if took { AdvanceEffect(a, store.disk, run, g); }
        RunKeeps(a, store.disk, op, run);
      case DoAbandon(run) =>
        var r := store.AbandonRun(run, pinned);
        ok, took := r.Ok?, r.Ok? || (r == Err(Io) && Closed(a, store.disk));
        SameRecordEnds(op, a, store.disk);
      case DoDiscard =>
        var r := store.DiscardRun(pinned);
        ok, took := r.Ok?, r.Ok? || (r == Err(Io) && Closed(a, store.disk));
      case DoSalvage =>
        var r := store.Salvage(pinned);
        ok, took := r.Ok?, r.Ok? || (r == Err(Io) && Salvaged(a, store.disk));
    }
    if RecordOf(a.view).Some? { RunEffects(a, store.disk); }
    Took(op, ok, a, store.disk, took);
  }

  lemma RunKeeps(a: Disk, b: Disk, op: Op, run: RunId)
    requires RecordOf(b.view) == RecordOf(a.view) || Dirtied(a, b, run) || exists g :: Advanced(a, b, run, g)
    ensures EndsExplicitly(op, a, b)
  {
    hide State, IsFinal;
  }

  method RunDropMemory(store: Store, pinned: set<GenerationId>) returns (ok: bool)
    requires Valid(store.disk) && store.disk.journaled
    modifies store
    ensures Valid(store.disk) && Atomic(old(store.disk), store.disk)
    ensures Step(DoDropMemory, ok, Spec(old(store.disk)), Spec(store.disk))
    ensures EndsExplicitly(DoDropMemory, old(store.disk), store.disk)
    ensures Settled(DoDropMemory, ok, store.Fallible(), old(store.disk))
  {
    hide CommitCount, Valid, CrashSafe, Later, Grows, State, Shelf, Step, SameRefs, FewerFinals, SameFinals, NoGarbage,
         RecordOf, MemoryDropped, HasMemory, IsDiskOf, RecordedAs, OnlyAdds, DiskOnly, Abs, Images, RunRecords,
         RecordDurable, Effect;
    ghost var a := store.disk;
    Unchanged(a);
    var r := store.DropMemory(pinned);
    ok := r.Ok?;
    PhaseOfState(a);
    if RecordOf(a.view).Some? { RunEffects(a, store.disk); }
    SameRecordEnds(DoDropMemory, a, store.disk);
    Took(DoDropMemory, ok, a, store.disk, r.Ok? || (r == Err(Io) && HasMemory(a) && MemoryDropped(a, store.disk)));
  }

  lemma SavedIsThere(d: Disk)
    ensures RecordOf(d.view).Some? && RecordOf(d.view).value.latest.Some? ==> Abs(d).current.Some?
  {
  }

  method RunDerive(store: Store, edits: seq<Edit>, editOk: bool, pinned: set<GenerationId>) returns (ok: bool)
    requires Valid(store.disk) && store.disk.journaled
    modifies store
    ensures Valid(store.disk) && Atomic(old(store.disk), store.disk)
    ensures Step(DoDerive(edits, editOk), ok, Spec(old(store.disk)), Spec(store.disk))
    ensures EndsExplicitly(DoDerive(edits, editOk), old(store.disk), store.disk)
    ensures Settled(DoDerive(edits, editOk), ok, store.Fallible(), old(store.disk))
  {
    hide CommitCount, Valid, CrashSafe, Later, Grows, State, Shelf, Step, SameRefs, FewerFinals, SameFinals, NoGarbage,
         RecordOf, Derived, RecordedAs, OnlyAdds, Abs, ManifestFiles, AfterEdits, Images, RunRecords, RecordDurable,
         Effect;
    ghost var a, op := store.disk, DoDerive(edits, editOk);
    Unchanged(a);
    PhaseOfState(a);
    SavedIsThere(a);
    var r := store.Derive(edits, editOk, pinned);
    ok := r.Ok?;
    ghost var took := r.Ok? || (r == Err(Io) && editOk && Derived(a, store.disk, edits));
    if took { DeriveEffect(a, store.disk, edits); }
    SameRecordEnds(op, a, store.disk);
    Took(op, ok, a, store.disk, took);
  }

  method RunCommit(store: Store, g: GenerationId, pinned: set<GenerationId>) returns (ok: bool)
    requires Valid(store.disk) && store.disk.journaled
    modifies store
    ensures Valid(store.disk) && Atomic(old(store.disk), store.disk)
    ensures Step(DoCommit(g), ok, Spec(old(store.disk)), Spec(store.disk))
    ensures EndsExplicitly(DoCommit(g), old(store.disk), store.disk)
    ensures Settled(DoCommit(g), ok, store.Fallible(), old(store.disk))
  {
    hide CommitCount, Valid, CrashSafe, Later, Grows, State, Shelf, Step, SameRefs, FewerFinals, SameFinals, NoGarbage,
         RecordOf, CommitOutcome, IsInPlace, Images, RunRecords, RecordDurable;
    ghost var a := store.disk;
    Unchanged(a);
    var r := store.CommitLatest(g, pinned);
    ok := r.Ok?;
    if r != Err(BadGeneration(g)) { CommitEffect(a, store.disk, g, r.Ok?); }
    Took(DoCommit(g), ok, a, store.disk, r.Ok? || (r != Err(BadGeneration(g)) && State(store.disk) != State(a)));
  }

  method RunCollect(store: Store, pinned: set<GenerationId>) returns (ok: bool)
    requires Valid(store.disk) && store.disk.journaled
    modifies store
    ensures Valid(store.disk) && Atomic(old(store.disk), store.disk)
    ensures Step(DoCollect, ok, Spec(old(store.disk)), Spec(store.disk))
    ensures EndsExplicitly(DoCollect, old(store.disk), store.disk)
    ensures Settled(DoCollect, ok, store.Fallible(), old(store.disk))
  {
    hide CommitCount, Valid, CrashSafe, Later, Grows, State, Shelf, Step, SameRefs, FewerFinals, SameFinals, NoGarbage,
         OnlyGarbage, RecordOf, Images, RunRecords;
    ghost var a := store.disk;
    Unchanged(a);
    var r := store.CollectGarbage(pinned);
    ok := r.Ok?;
    SameRecordEnds(DoCollect, a, store.disk);
    Took(DoCollect, ok, a, store.disk, true);
  }

  /** The operations on checkpoints, with or without an instance. */
  method RunOnRefs(store: Store, op: Op, pinned: set<GenerationId>) returns (ok: bool)
    requires Valid(store.disk) && store.disk.journaled
    requires op.DoAddCheckpoint? || op.DoRemoveCheckpoint?
    modifies store
    ensures Valid(store.disk) && Atomic(old(store.disk), store.disk)
    ensures Step(op, ok, Spec(old(store.disk)), Spec(store.disk))
    ensures EndsExplicitly(op, old(store.disk), store.disk)
    ensures Settled(op, ok, store.Fallible(), old(store.disk))
  {
    hide CommitCount, Valid, CrashSafe, Later, Grows, State, Shelf, Step, SameRefs, FewerFinals, SameFinals, NoGarbage,
         OnlyGarbage, RecordOf, RefOf, Checkpointed, Forgotten, OtherRefsSame, Only, IsInPlace, Unnamed, Effect,
         Creates, EndsExplicitly, Checkpoints, Images, RunRecords, SameRuns, RefDurable, PublishedPayload, IsFinal, Abs,
         Get, Spec;
    ghost var a := store.disk;
    ghost var took := false;
    Unchanged(a);
    match op {
      case DoAddCheckpoint(ref) =>
        var r := store.AddCheckpoint(ref);
        ok, took := r.Ok?, r.Ok? || (r == Err(Io) && Checkpointed(a, store.disk, ref));
        if took { CheckpointEffect(a, store.disk, ref); }
        if ref.generation !in a.ledger.published { UnpublishedNotInPlace(a, ref.generation); }
        OnlyKeeps(InRefs, a.view, store.disk.view);
        SameRecordEnds(op, a, store.disk);
        Took(op, ok, a, store.disk, took);
      case DoRemoveCheckpoint(c) =>
        var r := store.RemoveCheckpoint(c, pinned);
        ok, took := r.Ok?, Forgotten(a, store.disk, c);
        if took { ForgetEffect(a, store.disk, c); }
        SameRecordEnds(op, a, store.disk);
        Took(op, ok, a, store.disk, took);
    }
  }

  lemma PublishRefusal(d: Disk, files: Files, parent: Option<GenerationId>, origin: Origin)
    ensures Refuses(DoPublish(files, parent, origin), d) <==> !OriginStarted(origin, d.ledger.nextRun) || ROOTFS !in ManifestFiles(files)
  {
  }

  lemma NothingPublished(d: Disk, files: Files, parent: Option<GenerationId>, origin: Origin)
    ensures Step(DoPublish(files, parent, origin), false, Spec(d), Spec(d))
  {
    hide State, Shelf, Checkpoints;
  }

  method RunPublish(store: Store, files: Files, parent: Option<GenerationId>, origin: Origin) returns (ok: bool)
    requires Valid(store.disk) && store.disk.journaled
    modifies store
    ensures Valid(store.disk) && Atomic(old(store.disk), store.disk)
    ensures Step(DoPublish(files, parent, origin), ok, Spec(old(store.disk)), Spec(store.disk))
    ensures EndsExplicitly(DoPublish(files, parent, origin), old(store.disk), store.disk)
    ensures Settled(DoPublish(files, parent, origin), ok, store.Fallible(), old(store.disk))
  {
    hide CommitCount, Valid, CrashSafe, Later, Grows, State, NewGenerationOf, IsInPlace, RecordedAs, Step, Spec,
         ManifestFiles, RecordDurable, Unsynced, Images, RunRecords, OriginStarted, EndsExplicitly, PublishedFiles,
         SameRefs, SameFinals, Pending, RecordOf, FewerFinals, OtherRefsSame, Only, Refuses;
    ghost var a := store.disk;
    AtomicSelf(a);
    PublishRefusal(a, files, parent, origin);
    if !OriginStarted(origin, store.disk.ledger.nextRun) {
      SameRecordEnds(DoPublish(files, parent, origin), a, a);
      NothingPublished(a, files, parent, origin);
      return false;
    }
    var r := store.NewGeneration(files, parent, origin);
    ok := r.Ok?;
    PublishStep(a, store.disk, parent, origin, files, ok);
    NewGenerationKeeps(a, store.disk, parent, origin, files);
    SameRecordEnds(DoPublish(files, parent, origin), a, store.disk);
  }

  /** The guest of an open run with a disk writes; nothing happens otherwise. */
  method RunGuestWrite(store: Store, w: nat) returns (ok: bool)
    requires Valid(store.disk) && store.disk.journaled
    modifies store
    ensures Valid(store.disk) && Atomic(old(store.disk), store.disk)
    ensures Step(DoGuestWrite(w), ok, Spec(old(store.disk)), Spec(store.disk))
    ensures EndsExplicitly(DoGuestWrite(w), old(store.disk), store.disk)
    ensures Settled(DoGuestWrite(w), ok, store.Fallible(), old(store.disk))
  {
    hide CommitCount, Valid, CrashSafe, Later, Grows, State, Shelf, Effect, Step, SameRefs, SameFinals, Wrote, RecordOf;
    ghost var a := store.disk;
    Unchanged(a);
    var record := RecordOf(store.disk.view);
    if record.None? || record.value.phase.Stopped? || !HasRootfs(RunFiles(store.disk, record.value.phase.run)) {
      Took(DoGuestWrite(w), false, a, a, false);
      SameRecordEnds(DoGuestWrite(w), a, a);
      return false;
    }
    RootfsIsThere(store.disk, record.value.phase.run);
    store.GuestWrites(record.value.phase.run, w);
    WriteEffect(a, store.disk, record.value.phase.run, w);
    Took(DoGuestWrite(w), true, a, store.disk, true);
    SameRecordEnds(DoGuestWrite(w), a, store.disk);
    ok := true;
  }

  lemma RootfsIsThere(d: Disk, run: RunId)
    requires HasRootfs(RunFiles(d, run))
    ensures run in d.ledger.prepared && ROOTFS in d.ledger.prepared[run]
    ensures Get(d.view, RunFile(run, ROOTFS)).FileVal? && Get(d.view, RunFile(run, ROOTFS)).content.Data?
  {
  }

  /** The first image is staged and becomes the instance's saved state; where there is
      an instance it is refused. */
  method RunInitialize(store: Store, image: Files, pinned: set<GenerationId>) returns (ok: bool)
    requires Valid(store.disk) && store.disk.journaled
    modifies store
    ensures Valid(store.disk) && Atomic(old(store.disk), store.disk)
    ensures Step(DoInitialize(image), ok, Spec(old(store.disk)), Spec(store.disk))
    ensures EndsExplicitly(DoInitialize(image), old(store.disk), store.disk)
    ensures Settled(DoInitialize(image), ok, store.Fallible(), old(store.disk))
  {
    hide CommitCount, Valid, CrashSafe, Later, Grows, State, Checkpoints, Shelf, Step, Effect, SameRefs, OtherRefsSame,
         FewerFinals, SameFinals, Only, Staged, ChildrenAre, RecordOf, Payload, ManifestFiles, EndsExplicitly, Images,
         RunRecords, Unsynced, RecordDurable;
    ghost var a := store.disk;
    ghost var op := DoInitialize(image);
    var g := store.StageFiles(image);
    ghost var d2 := store.disk;
    StagedState(a, d2, a.ledger.nextGen);
    SameRecordEnds(op, a, d2);
    if g.Err? {
      Took(op, false, a, d2, false);
      return false;
    }
    CheckpointsKept(a, d2);
    PhaseOfState(a);
    var r := store.Initialize(g.value, image, pinned);
    Then(a, d2, store.disk);
    NoRecordEnds(op, a, d2, store.disk);
    ok := r.Ok?;
    Took(op, ok, a, store.disk, State(a).None? && State(store.disk).Some?);
  }

  lemma NoRecordEnds(op: Op, a: Disk, b: Disk, c: Disk)
    requires RecordOf(b.view) == RecordOf(a.view) && (RecordOf(a.view).Some? ==> c == b)
    ensures EndsExplicitly(op, a, c)
  {
    hide IsFinal;
  }

  /** One operation on the store is one step of the machine, whatever fails inside it. */
  method RunOp(store: Store, op: Op, pinned: set<GenerationId>) returns (ok: bool)
    requires Valid(store.disk) && store.disk.journaled && !op.DoLosePower?
    modifies store
    ensures Valid(store.disk) && Atomic(old(store.disk), store.disk)
    ensures Step(op, ok, Spec(old(store.disk)), Spec(store.disk))
    ensures EndsExplicitly(op, old(store.disk), store.disk)
    ensures Settled(op, ok, store.Fallible(), old(store.disk))
  {
    hide Valid, Step, Spec, Atomic, EndsExplicitly, Settled;
    match op {
      case DoInitialize(image) => ok := RunInitialize(store, image, pinned);
      case DoRecover => ok := RunRecover(store, pinned);
      case DoBegin(from) => ok := RunBegin(store, from);
      case DoPublish(files, parent, origin) => ok := RunPublish(store, files, parent, origin);
      case DoGuestWrite(w) => ok := RunGuestWrite(store, w);
      case DoMarkDirty(_) => ok := RunOnRun(store, op, pinned);
      case DoAdvance(_, _) => ok := RunOnRun(store, op, pinned);
      case DoAbandon(_) => ok := RunOnRun(store, op, pinned);
      case DoDiscard => ok := RunOnRun(store, op, pinned);
      case DoSalvage => ok := RunOnRun(store, op, pinned);
      case DoDropMemory => ok := RunDropMemory(store, pinned);
      case DoDerive(edits, editOk) => ok := RunDerive(store, edits, editOk, pinned);
      case DoCommit(g) => ok := RunCommit(store, g, pinned);
      case DoAddCheckpoint(_) => ok := RunOnRefs(store, op, pinned);
      case DoRemoveCheckpoint(_) => ok := RunOnRefs(store, op, pinned);
      case DoCollect => ok := RunCollect(store, pinned);
    }
  }

  /** The disks a history passes through, one per operation. */
  ghost predicate Milestones(disks: seq<Disk>) {
    && |disks| > 0 && (forall k :: 0 <= k < |disks| ==> CrashSafe(disks[k]))
    && (forall k :: 0 <= k < |disks| - 1 ==> Atomic(disks[k], disks[k + 1]))
  }

  /** One step of a history whose boot passed through `since` so far: an operation on the
      store, or a power loss, which returns to one of those states. */
  ghost predicate Moves(op: Op, ok: bool, since: seq<Disk>, now: Disk)
    requires |since| > 0
  {
    var last := since[|since| - 1];
    if !op.DoLosePower? then Step(op, ok, Spec(last), Spec(now)) && EndsExplicitly(op, last, now)
    else if !ok then now == last
    else exists j :: 0 <= j < |since| && GoesBack(Spec(since[j]), Spec(last), Spec(now))
  }

  /** An operation, or a power loss that happens if the drive may keep just the writes
      numbered in `keep`. */
  method RunNext(store: Store, op: Op, pinned: set<GenerationId>, ghost since: seq<Disk>) returns (ok: bool)
    requires Valid(store.disk) && store.disk.journaled
    requires Milestones(since) && since[0].log == [] && since[|since| - 1] == store.disk
    modifies store
    ensures Valid(store.disk) && store.disk.journaled && Moves(op, ok, since, store.disk)
    ensures op.DoLosePower? ==> (ok <==> Allowed(old(store.disk).log, op.keep, true))
    ensures Settled(op, ok, store.Fallible(), old(store.disk))
    ensures op.DoLosePower? && ok ==> store.disk.log == []
    ensures Milestones(if op.DoLosePower? && ok then [store.disk] else since + [store.disk])
  {
    hide Valid, CrashSafe, Step, Spec, Atomic, EndsExplicitly, GoesBack, Allowed, Survive, CrashState, Milestones;
    ghost var was := store.disk;
    FirstMilestone(since);
    if op.DoLosePower? {
      ok := Allowed(store.disk.log, op.keep, store.disk.journaled);
      if ok {
        var survivor := Survive(store.disk.base, store.disk.log, op.keep);
        MayShow(was, op.keep);
        RebootIsSafe(was, survivor);
        ghost var j := BootRefines(since, survivor);
        store.disk := Rebooted(store.disk, survivor);
        AloneIsMilestone(store.disk);
      } else {
        AtomicSelf(was);
        MoreMilestones(since, store.disk);
      }
    } else {
      ok := RunOp(store, op, pinned);
      AtomicKeeps(was, store.disk);
      MoreMilestones(since, store.disk);
    }
  }

  /** The store refines the machine over any number of boots: the states it passes
      through, seen through `Spec`, are a run of the machine with the same operations
      and outcomes. `boots[k]` are the disks of the boot that was on after `k` steps, the
      last being the disk then. */
  method RunAll(store: Store, ops: seq<Op>, pins: nat -> set<GenerationId>)
    returns (oks: seq<bool>, ghost boots: seq<seq<Disk>>)
    requires Valid(store.disk) && store.disk.journaled && store.disk.log == []
    modifies store
    ensures Valid(store.disk) && store.disk.journaled
    ensures |oks| == |ops| && |boots| == |ops| + 1
    ensures boots[0] == [old(store.disk)] && Ends(boots[|ops|], store.disk)
    ensures forall k :: 0 <= k < |ops| ==> Follows(ops[k], oks[k], boots[k], boots[k + 1])
    ensures forall k :: 0 <= k < |ops| ==> boots[k] != [] && Settled(ops[k], oks[k], store.Fallible(), boots[k][|boots[k]| - 1])
  {
    hide Valid, Follows, Milestones, Moves, Allowed, CrashSafe, Survive, Settled;
    oks, boots := [], [[store.disk]];
    AloneIsMilestone(store.disk);
    ghost var since := [store.disk];
    for i := 0 to |ops|
      invariant Valid(store.disk) && store.disk.journaled
      invariant |oks| == i && |boots| == i + 1 && boots[0] == [old(store.disk)] && boots[i] == since
      invariant Milestones(since) && |since| > 0 && since[0].log == [] && since[|since| - 1] == store.disk
      invariant forall k :: 0 <= k < i ==> Follows(ops[k], oks[k], boots[k], boots[k + 1])
      invariant forall k :: 0 <= k < i ==> boots[k] != [] && Settled(ops[k], oks[k], store.Fallible(), boots[k][|boots[k]| - 1])
    {
      ghost var was := since;
      var ok := RunNext(store, ops[i], pins(i), since);
      since := if ops[i].DoLosePower? && ok then [store.disk] else since + [store.disk];
      FollowsIs(ops[i], ok, was, since, store.disk);
      oks, boots := oks + [ok], boots + [since];
    }
  }

  predicate Ends(since: seq<Disk>, d: Disk) { |since| > 0 && since[|since| - 1] == d }

  /** The next state of a history: a power loss starts a new boot, anything else goes on
      in the same one. */
  ghost predicate Follows(op: Op, ok: bool, since: seq<Disk>, since': seq<Disk>) {
    && |since| > 0 && |since'| > 0 && since[0].log == []
    && var last, now := since[|since| - 1], since'[|since'| - 1];
       && since' == (if op.DoLosePower? && ok then [now] else since + [now])
       && (op.DoLosePower? ==> (ok <==> Allowed(last.log, op.keep, true)))
       && Moves(op, ok, since, now)
  }

  lemma FollowsIs(op: Op, ok: bool, since: seq<Disk>, since': seq<Disk>, now: Disk)
    requires |since| > 0 && since[0].log == [] && Moves(op, ok, since, now)
    requires op.DoLosePower? ==> (ok <==> Allowed(since[|since| - 1].log, op.keep, true))
    requires since' == (if op.DoLosePower? && ok then [now] else since + [now])
    ensures Follows(op, ok, since, since')
  {
    hide Moves, Allowed;
  }

  lemma AloneIsMilestone(d: Disk)
    requires CrashSafe(d)
    ensures Milestones([d])
  {
    hide CrashSafe;
  }

  lemma FirstMilestone(disks: seq<Disk>)
    requires Milestones(disks)
    ensures |disks| > 0 && CrashSafe(disks[|disks| - 1])
  {
    hide CrashSafe, Atomic;
  }

  lemma AtomicSelf(d: Disk)
    requires d.journaled
    ensures Atomic(d, d)
  {
    Unchanged(d);
  }

  lemma MoreMilestones(disks: seq<Disk>, d: Disk)
    requires Milestones(disks) && CrashSafe(d) && Atomic(disks[|disks| - 1], d)
    ensures Milestones(disks + [d])
  {
    hide CrashSafe, Atomic;
  }

  lemma AtomicKeeps(a: Disk, b: Disk)
    requires Atomic(a, b)
    ensures b.journaled && Later(a, b)
  {
  }

  /** A history's last disk is a later moment of every other. */
  lemma {:induction false} LaterAll(disks: seq<Disk>, i: nat, j: nat)
    requires Milestones(disks) && i <= j < |disks|
    ensures Later(disks[i], disks[j]) && disks[i].journaled == disks[j].journaled
    decreases j - i
  {
    hide CrashSafe, Later, Grows, CommitCount;
    if i == j {
      Unchanged(disks[i]);
    } else {
      LaterAll(disks, i, j - 1);
      assert Atomic(disks[j - 1], disks[j]);
      Then(disks[i], disks[j - 1], disks[j]);
    }
  }

  /** Every moment of a history shows what was committed at one of its milestones. */
  lemma {:induction false} MomentIsMilestone(disks: seq<Disk>, n: nat, k: nat) returns (j: nat)
    requires Milestones(disks) && n < |disks| && |disks[0].log| <= k <= |disks[n].log|
    ensures j <= n && SameCommitted(Past(disks[n], k), disks[j])
    decreases n
  {
    hide CrashSafe, SameCommitted, CommitCount;
    if n == 0 {
      j := 0;
      PastIsNow(disks[0]);
    } else {
      assert Atomic(disks[n - 1], disks[n]);
      if |disks[n - 1].log| <= k {
        MomentIsBeforeOrAfter(disks[n - 1], disks[n], k);
        j := if SameCommitted(Past(disks[n], k), disks[n]) then n else n - 1;
      } else {
        j := MomentIsMilestone(disks, n - 1, k);
        PastIsPast(disks[n - 1], disks[n], k);
        SameCommittedThen(Past(disks[n], k), Past(disks[n - 1], k), disks[j]);
      }
    }
  }

  lemma PastIsNow(d: Disk)
    requires CrashSafe(d)
    ensures SameCommitted(Past(d, |d.log|), d)
  {
    hide Safe, LedgerOk;
    assert d.log[..|d.log|] == d.log;
  }

  lemma PastIsPast(a: Disk, b: Disk, k: nat)
    requires Later(a, b) && k <= |a.log|
    ensures SameCommitted(Past(b, k), Past(a, k))
  {
    hide View;
    assert b.log[..k] == a.log[..k];
  }

  /** And with crashes: a power loss in a boot, on a journaled file system, brings back the
      saved state and the checkpoints of one state that boot passed through. */
  lemma BootRefines(disks: seq<Disk>, survivor: Fs) returns (j: nat)
    requires Milestones(disks) && disks[0].log == [] && disks[|disks| - 1].journaled
    requires var last := disks[|disks| - 1]; CrashState(last.base, last.log, last.journaled, survivor)
    ensures j < |disks| && GoesBack(Spec(disks[j]), Spec(disks[|disks| - 1]), Spec(Rebooted(disks[|disks| - 1], survivor)))
  {
    hide CrashSafe, CrashState, SameCommitted, State, CommitCount, Atomic, Checkpoints, Shelf, Later, Grows;
    var n := |disks| - 1;
    var last := disks[n];
    var k := PowerLossMoment(last, survivor);
    j := MomentIsMilestone(disks, n, k);
    SameCommittedThen(Rebooted(last, survivor), Past(last, k), disks[j]);
    LaterAll(disks, j, n);
    CommittedIsSaved(disks[j], Rebooted(last, survivor));
  }

  lemma PowerLossMoment(d: Disk, survivor: Fs) returns (k: nat)
    requires CrashSafe(d) && d.journaled && CrashState(d.base, d.log, d.journaled, survivor)
    ensures k <= |d.log| && SameCommitted(Rebooted(d, survivor), Past(d, k))
  {
    hide CrashSafe, CrashState, State;
    k := PowerLossShowsOneMoment(d, survivor);
  }

  lemma CommittedIsSaved(a: Disk, b: Disk)
    requires CrashSafe(a) && Grows(a.ledger, b.ledger) && SameCommitted(b, a)
    ensures SameSaved(State(b), State(a)) && Checkpoints(b) == Checkpoints(a)
  {
    hide CrashSafe, RecordOf, Checkpoints, Grows, Payload;
    RefsFlip(a.view, b.view);
    CheckpointsKept(a, b);
    if RecordOf(a.view).Some? { CurrentKept(a, b); }
  }

  lemma RefsFlip(a: Fs, b: Fs)
    requires SameRefs(b, a)
    ensures SameRefs(a, b)
  {
  }
}
