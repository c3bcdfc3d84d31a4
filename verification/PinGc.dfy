/**
  Readers pinning generations without the instance lock, interleaved step by step
  with the collector (src/store.rs:972-989, 1031-1048). Every system call is one
  step; any number of readers, generations and kills.
 */
module PinGc {
  import opened Layout
  import opened StoreModel

  type ReaderId = nat

  /** Where a generation's directory is. Its `.pin` keeps its identity, and its
      locks, when the directory is renamed or removed. */
  datatype Dir = Nowhere | Placed(files: Files) | Trashed(files: Files)

  datatype Reader =
    | Idle
    | Opened(gen: GenerationId)                                 // .pin is open
    | Locked(gen: GenerationId)                                 // shared lock held
    | Checking(gen: GenerationId, manifest: Manifest, todo: set<Name>)
    | Pinned(gen: GenerationId, copied: Files)                  // `pin` returned Ok
    | Refused(gen: GenerationId)                                // `pin` returned an error

  datatype Collector =
    | Resting
    | Considering(gen: GenerationId)
    | PinOpen(gen: GenerationId)
    | NoPin(gen: GenerationId)
    | Exclusive(gen: GenerationId)                              // exclusive lock held
    | Moved(gen: GenerationId)                                  // renamed, lock still held
    | Removing(gen: GenerationId)

  datatype Sys = Sys(
    dirs: map<GenerationId, Dir>,
    published: map<GenerationId, Files>,
    named: set<GenerationId>,
    readers: map<ReaderId, Reader>,
    sharers: map<GenerationId, set<ReaderId>>,
    collector: Collector)

  function DirOf(s: Sys, g: GenerationId): Dir { if g in s.dirs then s.dirs[g] else Nowhere }
  function ReaderOf(s: Sys, r: ReaderId): Reader { if r in s.readers then s.readers[r] else Idle }
  function SharersOf(s: Sys, g: GenerationId): set<ReaderId> { if g in s.sharers then s.sharers[g] else {} }

  predicate ExclusivelyLocked(s: Sys, g: GenerationId) {
    s.collector == Exclusive(g) || s.collector == Moved(g)
  }

  datatype Step =
    // a reader
    | Open(r: ReaderId, g: GenerationId)
    | LockShared(r: ReaderId)
    | ReadManifest(r: ReaderId)
    | CheckFile(r: ReaderId, n: Name)
    | FinishPin(r: ReaderId)
    | CopyFile(r: ReaderId, n: Name)
    | DropPin(r: ReaderId)                   // returns, drops its pin, or is killed
    // the lock holder's collector
    | Consider(g: GenerationId)
    | OpenPin
    | TryLock
    | MoveToTrash
    | DropLock
    | SweepTrash(g: GenerationId)
    | RemoveFile(n: Name)
    | RemoveDir
    | KillCollector
    // the lock holder's other operations
    | PublishGen(g: GenerationId, files: Files)
    | NameOnly(named: set<GenerationId>)

  function SetReader(s: Sys, r: ReaderId, reader: Reader): Sys { s.(readers := s.readers[r := reader]) }
  function SetDir(s: Sys, g: GenerationId, dir: Dir): Sys { s.(dirs := s.dirs[g := dir]) }

  /** The file is where the manifest says, with the recorded size. */
  predicate FileThere(dir: Dir, n: Name, size: nat) {
    dir.Placed? && n in dir.files && dir.files[n].Data? && Size(dir.files[n]) == size
  }

  predicate Enabled(s: Sys, step: Step) {
    match step
    case Open(r, g) => ReaderOf(s, r) == Idle
    case LockShared(r) => ReaderOf(s, r).Opened? && !ExclusivelyLocked(s, ReaderOf(s, r).gen)
    case ReadManifest(r) => ReaderOf(s, r).Locked?
    case CheckFile(r, n) => ReaderOf(s, r).Checking? && n in ReaderOf(s, r).todo && n in ReaderOf(s, r).manifest.files
    case FinishPin(r) => ReaderOf(s, r).Checking? && ReaderOf(s, r).todo == {}
    case CopyFile(r, n) => ReaderOf(s, r).Pinned? && DirOf(s, ReaderOf(s, r).gen).Placed? && n in DirOf(s, ReaderOf(s, r).gen).files
    case DropPin(r) => ReaderOf(s, r) != Idle
    case Consider(g) => s.collector == Resting && DirOf(s, g).Placed? && g !in s.named
    case OpenPin => s.collector.Considering? && DirOf(s, s.collector.gen).Placed?
    case TryLock => s.collector.PinOpen?
    case MoveToTrash => (s.collector.Exclusive? || s.collector.NoPin?) && DirOf(s, s.collector.gen).Placed?
    case DropLock => s.collector.Moved?
    case SweepTrash(g) => s.collector == Resting && DirOf(s, g).Trashed?
    case RemoveFile(n) => s.collector.Removing? && DirOf(s, s.collector.gen).Trashed? && n in DirOf(s, s.collector.gen).files
    case RemoveDir => s.collector.Removing? && DirOf(s, s.collector.gen) == Trashed(map[])
    case KillCollector => true
    case PublishGen(g, files) => s.collector == Resting && g !in s.published
    case NameOnly(named) => s.collector == Resting && forall g :: g in named ==> DirOf(s, g).Placed?
  }

  function Apply(s: Sys, step: Step): Sys
    requires Enabled(s, step)
  {
    match step
    case Open(r, g) =>
      if DirOf(s, g).Placed? && PIN in DirOf(s, g).files then SetReader(s, r, Opened(g)) else SetReader(s, r, Refused(g))
    case LockShared(r) =>
      var g := ReaderOf(s, r).gen;
      SetReader(s, r, Locked(g)).(sharers := s.sharers[g := SharersOf(s, g) + {r}])
    case ReadManifest(r) =>
      var g := ReaderOf(s, r).gen;
      var dir := DirOf(s, g);
      if dir.Placed? && MANIFEST in dir.files && dir.files[MANIFEST].ManifestDoc?
         && dir.files[MANIFEST].manifest.id == g && ROOTFS in dir.files[MANIFEST].manifest.files then
        var m := dir.files[MANIFEST].manifest;
        SetReader(s, r, Checking(g, m, m.files.Keys))
      else SetReader(s, r, Refused(g))
    case CheckFile(r, n) =>
      var reader := ReaderOf(s, r);
      if FileThere(DirOf(s, reader.gen), n, reader.manifest.files[n]) then
        SetReader(s, r, reader.(todo := reader.todo - {n}))
      else SetReader(s, r, Refused(reader.gen))
    case FinishPin(r) => SetReader(s, r, Pinned(ReaderOf(s, r).gen, map[]))
    case CopyFile(r, n) =>
      var reader := ReaderOf(s, r);
      SetReader(s, r, reader.(copied := reader.copied[n := DirOf(s, reader.gen).files[n]]))
    case DropPin(r) =>
      var g := ReaderOf(s, r).gen;
      SetReader(s, r, Idle).(sharers := s.sharers[g := SharersOf(s, g) - {r}])
    case Consider(g) => s.(collector := Considering(g))
    case OpenPin =>
      var g := s.collector.gen;
      s.(collector := if PIN in DirOf(s, g).files then PinOpen(g) else NoPin(g))
    case TryLock =>
      var g := s.collector.gen;
      s.(collector := if SharersOf(s, g) == {} then Exclusive(g) else Resting)
    case MoveToTrash =>
      var g := s.collector.gen;
      SetDir(s, g, Trashed(DirOf(s, g).files)).(collector := if s.collector.NoPin? then Removing(g) else Moved(g))
    case DropLock => s.(collector := Removing(s.collector.gen))
    case SweepTrash(g) => s.(collector := Removing(g))
    case RemoveFile(n) =>
      var g := s.collector.gen;
      SetDir(s, g, Trashed(DirOf(s, g).files - {n}))
    case RemoveDir => SetDir(s, s.collector.gen, Nowhere).(collector := Resting)
    case KillCollector => s.(collector := Resting)
    case PublishGen(g, files) => SetDir(s, g, Placed(files)).(published := s.published[g := files])
    case NameOnly(named) => s.(named := named)
  }

  /** A run: every step is taken when it is enabled. */
  predicate IsRun(s: Sys, steps: seq<Step>)
    decreases |steps|
  {
    steps == [] || (Enabled(s, steps[0]) && IsRun(Apply(s, steps[0]), steps[1..]))
  }

  function After(s: Sys, steps: seq<Step>): Sys
    requires IsRun(s, steps)
    decreases |steps|
  {
    if steps == [] then s else After(Apply(s, steps[0]), steps[1..])
  }

  const Start := Sys(map[], map[], {}, map[], map[], Resting)

  // ------------------------------------------------------------ the invariant

  /** In place means whole and as published. */
  ghost predicate DirOk(s: Sys, g: GenerationId) {
    && (DirOf(s, g).Placed? ==> g in s.published && DirOf(s, g).files == s.published[g])
    && (g in s.named ==> DirOf(s, g).Placed?)
    && (DirOf(s, g).Trashed? ==> g in s.published)
  }

  predicate HoldsLock(reader: Reader) {
    reader.Locked? || reader.Checking? || reader.Pinned?
  }

  ghost predicate ReaderOk(s: Sys, r: ReaderId) {
    var reader := ReaderOf(s, r);
    && (reader.Opened? || HoldsLock(reader) ==> reader.gen in s.published && PIN in s.published[reader.gen])
    && (HoldsLock(reader) ==> r in SharersOf(s, reader.gen))
    && (reader.Checking? || reader.Pinned? ==> DirOf(s, reader.gen).Placed?)
    && (reader.Pinned? ==> forall n :: n in reader.copied ==>
          n in s.published[reader.gen] && reader.copied[n] == s.published[reader.gen][n])
  }

  ghost predicate CollectorOk(s: Sys) {
    && (s.collector.Exclusive? || s.collector.Moved? ==> SharersOf(s, s.collector.gen) == {})
    && (s.collector.Considering? || s.collector.PinOpen? || s.collector.NoPin? || s.collector.Exclusive? ==>
          s.collector.gen !in s.named && DirOf(s, s.collector.gen).Placed?)
    && (s.collector.NoPin? ==> PIN !in DirOf(s, s.collector.gen).files)
    && (s.collector.Moved? || s.collector.Removing? ==>
          !DirOf(s, s.collector.gen).Placed? && s.collector.gen in s.published && s.collector.gen !in s.named)
  }

  ghost predicate Inv(s: Sys) {
    && (forall g :: DirOk(s, g))
    && (forall r :: ReaderOk(s, r))
    && CollectorOk(s)
  }

  lemma InvStart()
    ensures Inv(Start)
  {
  }

  lemma DirStep(s: Sys, step: Step, g: GenerationId)
    requires Inv(s) && Enabled(s, step)
    ensures DirOk(Apply(s, step), g)
    ensures g in s.published ==> g in Apply(s, step).published && Apply(s, step).published[g] == s.published[g]
    ensures g in s.published && !DirOf(s, g).Placed? ==> !DirOf(Apply(s, step), g).Placed?
  {
    assert DirOk(s, g);
  }

  predicate IsReaderStep(step: Step) {
    step.Open? || step.LockShared? || step.ReadManifest? || step.CheckFile? || step.FinishPin? || step.CopyFile? || step.DropPin?
  }

  /** A reader's own steps. */
  lemma OwnStep(s: Sys, step: Step, r: ReaderId)
    requires Inv(s) && Enabled(s, step) && IsReaderStep(step) && step.r == r
    ensures ReaderOk(Apply(s, step), r)
  {
    assert ReaderOk(s, r);
    var reader := ReaderOf(s, r);
    if reader != Idle { assert DirOk(s, reader.gen); }
    if step.Open? { assert DirOk(s, step.g); }
  }

  /** Another reader's steps. */
  lemma OtherStep(s: Sys, step: Step, r: ReaderId)
    requires Inv(s) && Enabled(s, step) && IsReaderStep(step) && step.r != r
    ensures ReaderOk(Apply(s, step), r)
  {
    assert ReaderOk(s, r);
  }

  /** A generation somebody has locked is not moved: the collector would need the
      exclusive lock, or a generation nobody could have opened. */
  lemma CollectorStep(s: Sys, step: Step, r: ReaderId)
    requires Inv(s) && Enabled(s, step) && !IsReaderStep(step)
    ensures ReaderOk(Apply(s, step), r)
  {
    assert ReaderOk(s, r);
    var reader := ReaderOf(s, r);
    if reader != Idle {
      assert DirOk(s, reader.gen);
      DirStep(s, step, reader.gen);
    }
  }

  lemma ReaderLocksStep(s: Sys, step: Step)
    requires Inv(s) && Enabled(s, step) && IsReaderStep(step)
    ensures CollectorOk(Apply(s, step))
  {
  }

  lemma CollectorLocksStep(s: Sys, step: Step)
    requires Inv(s) && Enabled(s, step) && !IsReaderStep(step)
    ensures CollectorOk(Apply(s, step))
  {
    if s.collector != Resting { assert DirOk(s, s.collector.gen); }
    if step.SweepTrash? || step.Consider? { assert DirOk(s, step.g); }
  }

  lemma InvStep(s: Sys, step: Step)
    requires Inv(s) && Enabled(s, step)
    ensures Inv(Apply(s, step))
  {
    hide Apply, Enabled, DirOk, ReaderOk, CollectorOk;
    var t := Apply(s, step);
    forall g ensures DirOk(t, g) { DirStep(s, step, g); }
    forall r ensures ReaderOk(t, r) {
      if !IsReaderStep(step) { CollectorStep(s, step, r); }
      else if step.r == r { OwnStep(s, step, r); }
      else { OtherStep(s, step, r); }
    }
    if IsReaderStep(step) { ReaderLocksStep(s, step); } else { CollectorLocksStep(s, step); }
  }

  lemma {:induction false} InvRun(s: Sys, steps: seq<Step>)
    requires Inv(s) && IsRun(s, steps)
    ensures Inv(After(s, steps))
    decreases |steps|
  {
    hide Apply, Enabled, Inv;
    if steps != [] {
      InvStep(s, steps[0]);
      InvRun(Apply(s, steps[0]), steps[1..]);
    }
  }

  // ------------------------------------------------------------ the theorems

  /** In every reachable state, a pinned generation is in place and holds exactly
      what it was published with, and what its reader has copied out is that;
      and every generation the record or a checkpoint names is in place. */
  lemma PinnedStaysComplete(steps: seq<Step>, r: ReaderId)
    requires IsRun(Start, steps) && ReaderOf(After(Start, steps), r).Pinned?
    ensures var s := After(Start, steps);
            var pin := ReaderOf(s, r);
            && pin.gen in s.published && DirOf(s, pin.gen) == Placed(s.published[pin.gen])
            && forall n :: n in pin.copied ==> n in s.published[pin.gen] && pin.copied[n] == s.published[pin.gen][n]
  {
    hide IsRun, After, Apply, Enabled;
    InvStart();
    InvRun(Start, steps);
    var s := After(Start, steps);
    assert ReaderOk(s, r) && DirOk(s, ReaderOf(s, r).gen);
  }

  lemma NamedStaysInPlace(steps: seq<Step>, g: GenerationId)
    requires IsRun(Start, steps) && g in After(Start, steps).named
    ensures g in After(Start, steps).published && DirOf(After(Start, steps), g) == Placed(After(Start, steps).published[g])
  {
    hide IsRun, After, Apply, Enabled;
    InvStart();
    InvRun(Start, steps);
    assert DirOk(After(Start, steps), g);
  }

  /** The reader is still in the `pin` call it made for `g`, without having passed
      the check of the directory. */
  predicate Waiting(s: Sys, r: ReaderId, g: GenerationId) {
    var reader := ReaderOf(s, r);
    reader == Opened(g) || reader == Locked(g) || reader == Refused(g)
  }

  /** A reader that opened `.pin` before the collector moved the directory, however
      long before it gets the lock, is refused: in every continuation it waits or
      is refused until it returns. */
  lemma {:induction false} LateLockIsRefused(s: Sys, steps: seq<Step>, r: ReaderId, g: GenerationId)
    requires Inv(s) && IsRun(s, steps) && Waiting(s, r, g) && g in s.published && !DirOf(s, g).Placed?
    requires DropPin(r) !in steps
    ensures Waiting(After(s, steps), r, g)
    decreases |steps|
  {
    hide Inv;
    if steps != [] {
      var t := Apply(s, steps[0]);
      WaitingStep(s, steps[0], r, g);
      LateLockIsRefused(t, steps[1..], r, g);
    }
  }

  lemma WaitingStep(s: Sys, step: Step, r: ReaderId, g: GenerationId)
    requires Inv(s) && Enabled(s, step) && Waiting(s, r, g) && g in s.published && !DirOf(s, g).Placed? && step != DropPin(r)
    ensures var t := Apply(s, step);
            Inv(t) && Waiting(t, r, g) && g in t.published && !DirOf(t, g).Placed?
  {
    InvStep(s, step);
    hide Inv;
    DirStep(s, step, g);
  }

  /** A pin holds until it is dropped, whatever the collector and the other readers
      do: the reader keeps it, and the directory keeps every byte. */
  lemma {:induction false} PinHolds(s: Sys, steps: seq<Step>, r: ReaderId)
    requires Inv(s) && IsRun(s, steps) && ReaderOf(s, r).Pinned? && DropPin(r) !in steps
    ensures var t := After(s, steps);
            && ReaderOf(t, r).Pinned? && ReaderOf(t, r).gen == ReaderOf(s, r).gen
            && DirOf(t, ReaderOf(s, r).gen) == DirOf(s, ReaderOf(s, r).gen)
    decreases |steps|
  {
    hide Inv;
    if steps != [] {
      PinHoldsStep(s, steps[0], r);
      PinHolds(Apply(s, steps[0]), steps[1..], r);
    }
  }

  lemma PinHoldsStep(s: Sys, step: Step, r: ReaderId)
    requires Inv(s) && Enabled(s, step) && ReaderOf(s, r).Pinned? && step != DropPin(r)
    ensures var t := Apply(s, step);
            && Inv(t) && ReaderOf(t, r).Pinned? && ReaderOf(t, r).gen == ReaderOf(s, r).gen
            && DirOf(t, ReaderOf(s, r).gen) == DirOf(s, ReaderOf(s, r).gen)
  {
    var g := ReaderOf(s, r).gen;
    assert ReaderOk(s, r) && DirOk(s, g) && CollectorOk(s);
    InvStep(s, step);
    assert ReaderOk(Apply(s, step), r);
    hide Inv;
    DirStep(s, step, g);
  }
}
