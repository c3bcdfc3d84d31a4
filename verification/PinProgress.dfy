/**
  What the pin protocol is for: a reader that asks for a generation in place gets
  it, and copies out of it what it likes, and a generation nobody names or reads
  goes (src/store.rs:972-989, 1031-1048).
 */
module PinProgress {
  import opened Layout
  import opened StoreModel
  import opened PinGc

  // ------------------------------------------------------------ a reader gets its pin

  /** The directory is in place, can be locked, and has what its manifest lists. */
  ghost predicate Complete(dir: Dir, g: GenerationId) {
    && dir.Placed? && PIN in dir.files && MANIFEST in dir.files && dir.files[MANIFEST].ManifestDoc?
    && dir.files[MANIFEST].manifest.id == g && ROOTFS in dir.files[MANIFEST].manifest.files
    && forall n :: n in dir.files[MANIFEST].manifest.files ==>
         FileThere(dir, n, dir.files[MANIFEST].manifest.files[n])
  }

  ghost function Listed(dir: Dir, g: GenerationId): (m: Manifest)
    requires Complete(dir, g)
    ensures forall n :: n in m.files ==> FileThere(dir, n, m.files[n])
  {
    dir.files[MANIFEST].manifest
  }

  /** The reader is on its way to a pin of `g`, or there. */
  ghost predicate OnTrack(s: Sys, r: ReaderId, g: GenerationId) {
    && Complete(DirOf(s, g), g)
    && match ReaderOf(s, r)
       case Idle => true
       case Opened(h) => h == g
       case Locked(h) => h == g
       case Checking(h, m, todo) => h == g && m == Listed(DirOf(s, g), g) && todo <= m.files.Keys
       case Pinned(h, copied) => h == g && copied == map[]
       case Refused(h) => false
  }

  /** How many system calls the reader still has to make. */
  ghost function Left(s: Sys, r: ReaderId, g: GenerationId): nat
    requires OnTrack(s, r, g)
  {
    match ReaderOf(s, r)
    case Idle => |Listed(DirOf(s, g), g).files| + 4
    case Opened(h) => |Listed(DirOf(s, g), g).files| + 3
    case Locked(h) => |Listed(DirOf(s, g), g).files| + 2
    case Checking(h, m, todo) => |todo| + 1
    case _ => 0
  }

  predicate IsOwn(step: Step, r: ReaderId) { IsReaderStep(step) && step.r == r }

  /** The reader makes its call for `g`, and neither gives up nor reads yet. */
  predicate Asks(step: Step, r: ReaderId, g: GenerationId) {
    IsOwn(step, r) ==> !step.DropPin? && !step.CopyFile? && (step.Open? ==> step.g == g)
  }

  /** Every call a reader makes is answered and brings it one nearer. */
  lemma OwnProgress(s: Sys, step: Step, r: ReaderId, g: GenerationId)
    requires Enabled(s, step) && OnTrack(s, r, g) && IsOwn(step, r) && Asks(step, r, g)
    ensures OnTrack(Apply(s, step), r, g) && Left(Apply(s, step), r, g) == Left(s, r, g) - 1
  {
    assert DirOf(Apply(s, step), g) == DirOf(s, g);
    if step.CheckFile? {
      var reader := ReaderOf(s, r);
      assert reader.todo == (reader.todo - {step.n}) + {step.n};
    }
  }

  predicate Moves(s: Sys, step: Step, g: GenerationId) { step.MoveToTrash? && Enabled(s, step) && s.collector.gen == g }

  /** Nobody else puts a reader off, once it has its lock; before that, only a collector that
      moves the directory away. */
  lemma OthersKeep(s: Sys, step: Step, r: ReaderId, g: GenerationId)
    requires Inv(s) && Enabled(s, step) && OnTrack(s, r, g) && !IsOwn(step, r)
    requires HoldsLock(ReaderOf(s, r)) || !Moves(s, step, g)
    ensures OnTrack(Apply(s, step), r, g) && Left(Apply(s, step), r, g) == Left(s, r, g)
  {
    assert ReaderOk(s, r) && DirOk(s, g) && CollectorOk(s);
    assert DirOf(Apply(s, step), g) == DirOf(s, g);
    assert ReaderOf(Apply(s, step), r) == ReaderOf(s, r);
  }

  /** Whoever else runs, the collector does not move `g` before the reader has its lock. */
  predicate Undisturbed(s: Sys, steps: seq<Step>, r: ReaderId, g: GenerationId)
    requires IsRun(s, steps)
    decreases |steps|
  {
    steps == [] || (
      && Asks(steps[0], r, g) && (HoldsLock(ReaderOf(s, r)) || !Moves(s, steps[0], g))
      && Undisturbed(Apply(s, steps[0]), steps[1..], r, g))
  }

  function OwnSteps(steps: seq<Step>, r: ReaderId): nat
    decreases |steps|
  {
    if steps == [] then 0 else (if IsOwn(steps[0], r) then 1 else 0) + OwnSteps(steps[1..], r)
  }

  /** Whatever else happens, each of the reader's calls counts, and with the last the generation
      is pinned. */
  lemma {:induction false} PinIsGranted(s: Sys, steps: seq<Step>, r: ReaderId, g: GenerationId)
    requires Inv(s) && IsRun(s, steps) && OnTrack(s, r, g) && Undisturbed(s, steps, r, g)
    ensures OnTrack(After(s, steps), r, g) && OwnSteps(steps, r) + Left(After(s, steps), r, g) == Left(s, r, g)
    ensures OwnSteps(steps, r) == Left(s, r, g) ==> ReaderOf(After(s, steps), r) == Pinned(g, map[])
    decreases |steps|
  {
    hide Inv, OnTrack, Left, Enabled, Apply;
    if steps != [] {
      var t := Apply(s, steps[0]);
      InvStep(s, steps[0]);
      if IsOwn(steps[0], r) { OwnProgress(s, steps[0], r, g); } else { OthersKeep(s, steps[0], r, g); }
      PinIsGranted(t, steps[1..], r, g);
    } else {
      NothingLeft(s, r, g);
    }
  }

  lemma NothingLeft(s: Sys, r: ReaderId, g: GenerationId)
    requires OnTrack(s, r, g)
    ensures Left(s, r, g) == 0 ==> ReaderOf(s, r) == Pinned(g, map[])
  {
  }

  /** The next call is always there to be made, but for the wait on an exclusive lock. */
  lemma NextCall(s: Sys, r: ReaderId, g: GenerationId) returns (step: Step)
    requires OnTrack(s, r, g) && Left(s, r, g) > 0 && !ExclusivelyLocked(s, g)
    ensures IsOwn(step, r) && Asks(step, r, g) && Enabled(s, step)
  {
    match ReaderOf(s, r)
    case Idle => step := Open(r, g);
    case Opened(_) => step := LockShared(r);
    case Locked(_) => step := ReadManifest(r);
    case Checking(_, m, todo) =>
      if todo == {} { step := FinishPin(r); }
      else { var n :| n in todo; step := CheckFile(r, n); }
    case _ => assert false;
  }

  function Checks(r: ReaderId, order: seq<Name>): seq<Step> { seq(|order|, i requires 0 <= i < |order| => CheckFile(r, order[i])) }

  function PinSteps(r: ReaderId, g: GenerationId, order: seq<Name>): seq<Step> {
    [Open(r, g), LockShared(r), ReadManifest(r)] + (Checks(r, order) + [FinishPin(r)])
  }

  ghost predicate Enumerates(order: seq<Name>, names: set<Name>) {
    && (forall i :: 0 <= i < |order| ==> order[i] in names)
    && (forall n :: n in names ==> n in order)
    && (forall i, j :: 0 <= i < j < |order| ==> order[i] != order[j])
  }

  lemma RestEnumerates(order: seq<Name>, names: set<Name>)
    requires Enumerates(order, names) && order != []
    ensures order[0] in names && Enumerates(order[1..], names - {order[0]})
  {
    forall n | n in names - {order[0]} ensures n in order[1..] {
      assert n in order && order == [order[0]] + order[1..];
    }
  }

  lemma {:induction false} Then(s: Sys, first: seq<Step>, rest: seq<Step>)
    requires IsRun(s, first) && IsRun(After(s, first), rest)
    ensures IsRun(s, first + rest) && After(s, first + rest) == After(After(s, first), rest)
    decreases |first|
  {
    hide Enabled, Apply;
    if first == [] {
      assert first + rest == rest;
    } else {
      Then(Apply(s, first[0]), first[1..], rest);
      assert (first + rest)[1..] == first[1..] + rest;
    }
  }

  lemma NoSteps(s: Sys)
    ensures IsRun(s, []) && After(s, []) == s
  {
  }

  lemma FirstStep(s: Sys, step: Step, rest: seq<Step>)
    requires Enabled(s, step) && IsRun(Apply(s, step), rest)
    ensures IsRun(s, [step] + rest) && After(s, [step] + rest) == After(Apply(s, step), rest)
  {
    hide Enabled, Apply;
    assert ([step] + rest)[1..] == rest;
  }

  /** The state with the reader's pin, and everything else as it was. */
  ghost function WithPin(s: Sys, r: ReaderId, g: GenerationId): Sys {
    SetReader(s, r, Pinned(g, map[])).(sharers := s.sharers[g := SharersOf(s, g) + {r}])
  }

  lemma CheckOne(s: Sys, r: ReaderId, g: GenerationId, n: Name)
    requires OnTrack(s, r, g) && ReaderOf(s, r).Checking? && n in ReaderOf(s, r).todo
    ensures Enabled(s, CheckFile(r, n))
    ensures var t := Apply(s, CheckFile(r, n));
            && OnTrack(t, r, g) && ReaderOf(t, r).Checking? && ReaderOf(t, r).todo == ReaderOf(s, r).todo - {n}
            && SetReader(t, r, Pinned(g, map[])) == SetReader(s, r, Pinned(g, map[]))
  {
  }

  lemma Finish(s: Sys, r: ReaderId, g: GenerationId)
    requires OnTrack(s, r, g) && ReaderOf(s, r).Checking? && forall n :: n !in ReaderOf(s, r).todo
    ensures IsRun(s, [FinishPin(r)]) && After(s, [FinishPin(r)]) == SetReader(s, r, Pinned(g, map[]))
  {
    hide Complete;
    assert ReaderOf(s, r).todo == {};
    FirstStep(s, FinishPin(r), []);
    assert [FinishPin(r)] + [] == [FinishPin(r)];
  }

  lemma {:induction false} ChecksRun(s: Sys, r: ReaderId, g: GenerationId, order: seq<Name>)
    requires OnTrack(s, r, g) && ReaderOf(s, r).Checking? && Enumerates(order, ReaderOf(s, r).todo)
    ensures var steps := Checks(r, order) + [FinishPin(r)];
            IsRun(s, steps) && After(s, steps) == SetReader(s, r, Pinned(g, map[]))
    decreases |order|
  {
    hide IsRun, After, Enabled, Apply, OnTrack, ReaderOf, SetReader;
    var steps := Checks(r, order) + [FinishPin(r)];
    if order == [] {
      Finish(s, r, g);
      assert steps == [FinishPin(r)];
    } else {
      RestEnumerates(order, ReaderOf(s, r).todo);
      CheckOne(s, r, g, order[0]);
      ChecksRun(Apply(s, CheckFile(r, order[0])), r, g, order[1..]);
      FirstStep(s, CheckFile(r, order[0]), Checks(r, order[1..]) + [FinishPin(r)]);
      assert steps == [CheckFile(r, order[0])] + (Checks(r, order[1..]) + [FinishPin(r)]);
    }
  }

  /** The whole call, with the listed files checked in any order. */
  lemma PinRuns(s: Sys, r: ReaderId, g: GenerationId, order: seq<Name>)
    requires Complete(DirOf(s, g), g) && ReaderOf(s, r) == Idle && !ExclusivelyLocked(s, g)
    requires Enumerates(order, Listed(DirOf(s, g), g).files.Keys)
    ensures IsRun(s, PinSteps(r, g, order)) && After(s, PinSteps(r, g, order)) == WithPin(s, r, g)
  {
    hide IsRun, After, OnTrack;
    var t := ToChecking(s, r, g);
    ChecksRun(t, r, g, order);
    Then(s, [Open(r, g), LockShared(r), ReadManifest(r)], Checks(r, order) + [FinishPin(r)]);
  }

  /** Up to the manifest. */
  lemma ToChecking(s: Sys, r: ReaderId, g: GenerationId) returns (t: Sys)
    requires Complete(DirOf(s, g), g) && ReaderOf(s, r) == Idle && !ExclusivelyLocked(s, g)
    ensures IsRun(s, [Open(r, g), LockShared(r), ReadManifest(r)]) && t == After(s, [Open(r, g), LockShared(r), ReadManifest(r)])
    ensures OnTrack(t, r, g) && ReaderOf(t, r).Checking? && ReaderOf(t, r).todo == Listed(DirOf(s, g), g).files.Keys
    ensures SetReader(t, r, Pinned(g, map[])) == WithPin(s, r, g)
  {
    var a := Apply(s, Open(r, g));
    var b := Apply(a, LockShared(r));
    t := Apply(b, ReadManifest(r));
    hide Complete, FileThere;
    FirstStep(b, ReadManifest(r), []);
    FirstStep(a, LockShared(r), [ReadManifest(r)] + []);
    FirstStep(s, Open(r, g), [LockShared(r)] + ([ReadManifest(r)] + []));
    assert [Open(r, g), LockShared(r), ReadManifest(r)] == [Open(r, g)] + ([LockShared(r)] + ([ReadManifest(r)] + []));
  }

  // ------------------------------------------------------------ a reader copies

  lemma CopyStep(s: Sys, step: Step, r: ReaderId)
    requires Inv(s) && Enabled(s, step) && ReaderOf(s, r).Pinned? && step != DropPin(r)
    ensures var t := Apply(s, step);
            && Inv(t) && ReaderOf(t, r).Pinned?
            && ReaderOf(t, r).copied.Keys ==
                 ReaderOf(s, r).copied.Keys + (if step.CopyFile? && step.r == r then {step.n} else {})
  {
    PinHoldsStep(s, step, r);
    hide Inv;
  }

  function CopiedIn(steps: seq<Step>, r: ReaderId): set<Name>
    decreases |steps|
  {
    if steps == [] then {}
    else (if steps[0].CopyFile? && steps[0].r == r then {steps[0].n} else {}) + CopiedIn(steps[1..], r)
  }

  /** While it holds its pin, a reader has what it copied, each file with its published content. */
  lemma {:induction false} CopiesAreKept(s: Sys, steps: seq<Step>, r: ReaderId)
    requires Inv(s) && IsRun(s, steps) && ReaderOf(s, r).Pinned? && DropPin(r) !in steps
    ensures ReaderOf(After(s, steps), r).Pinned?
    ensures ReaderOf(After(s, steps), r).copied.Keys == ReaderOf(s, r).copied.Keys + CopiedIn(steps, r)
    decreases |steps|
  {
    hide Inv, Apply, Enabled;
    if steps != [] {
      CopyStep(s, steps[0], r);
      CopiesAreKept(Apply(s, steps[0]), steps[1..], r);
    }
  }

  // ------------------------------------------------------------ a generation goes

  function Removes(order: seq<Name>): seq<Step> { seq(|order|, i requires 0 <= i < |order| => RemoveFile(order[i])) }

  /** The state without the directory, and everything else as it was. */
  ghost function Without(s: Sys, g: GenerationId): Sys { SetDir(s, g, Nowhere).(collector := Resting) }

  lemma RemoveOne(s: Sys, g: GenerationId, n: Name)
    requires s.collector == Removing(g) && DirOf(s, g).Trashed? && n in DirOf(s, g).files
    ensures Enabled(s, RemoveFile(n))
    ensures var t := Apply(s, RemoveFile(n));
            && t.collector == Removing(g) && DirOf(t, g).Trashed? && DirOf(t, g).files.Keys == DirOf(s, g).files.Keys - {n}
            && Without(t, g) == Without(s, g)
  {
  }

  lemma RemoveLast(s: Sys, g: GenerationId)
    requires s.collector == Removing(g) && DirOf(s, g).Trashed? && forall n :: n !in DirOf(s, g).files
    ensures IsRun(s, [RemoveDir]) && After(s, [RemoveDir]) == Without(s, g)
  {
    assert DirOf(s, g).files == map[];
    FirstStep(s, RemoveDir, []);
    assert [RemoveDir] + [] == [RemoveDir];
  }

  lemma {:induction false} RemovesRun(s: Sys, g: GenerationId, order: seq<Name>)
    requires s.collector == Removing(g) && DirOf(s, g).Trashed? && Enumerates(order, DirOf(s, g).files.Keys)
    ensures var steps := Removes(order) + [RemoveDir];
            IsRun(s, steps) && After(s, steps) == Without(s, g)
    decreases |order|
  {
    hide IsRun, After, Enabled, Apply, DirOf;
    var steps, names := Removes(order) + [RemoveDir], DirOf(s, g).files.Keys;
    if order == [] {
      RemoveLast(s, g);
      assert steps == [RemoveDir];
    } else {
      RestEnumerates(order, names);
      RemoveOne(s, g, order[0]);
      RemovesRun(Apply(s, RemoveFile(order[0])), g, order[1..]);
      FirstStep(s, RemoveFile(order[0]), Removes(order[1..]) + [RemoveDir]);
      assert steps == [RemoveFile(order[0])] + (Removes(order[1..]) + [RemoveDir]);
    }
  }

  /** A generation that nothing names and nobody has locked is collected, file by file, and
      nothing else changes. */
  lemma GarbageGoes(s: Sys, g: GenerationId, order: seq<Name>)
    requires s.collector == Resting && DirOf(s, g).Placed? && g !in s.named && SharersOf(s, g) == {}
    requires Enumerates(order, DirOf(s, g).files.Keys)
    ensures var taken := if PIN in DirOf(s, g).files then [Consider(g), OpenPin, TryLock, MoveToTrash, DropLock]
                         else [Consider(g), OpenPin, MoveToTrash];
            var steps := taken + (Removes(order) + [RemoveDir]);
            IsRun(s, steps) && After(s, steps) == Without(s, g)
  {
    hide IsRun, After, Removes;
    var taken, gone := TakeOut(s, g);
    RemovesRun(gone, g, order);
    Then(s, taken, Removes(order) + [RemoveDir]);
  }

  /** Each of the collector's calls up to the directory in the trash. */
  lemma Calls(s: Sys, g: GenerationId)
    requires s.collector == Resting && DirOf(s, g).Placed? && g !in s.named && SharersOf(s, g) == {}
    ensures var files := DirOf(s, g).files;
            var b := s.(collector := if PIN in files then PinOpen(g) else NoPin(g));
            var away := SetDir(s, g, Trashed(files));
            && Enabled(s, Consider(g)) && Enabled(Apply(s, Consider(g)), OpenPin) && Apply(Apply(s, Consider(g)), OpenPin) == b
            && if PIN in files then
                 && Enabled(b, TryLock) && Enabled(Apply(b, TryLock), MoveToTrash)
                 && Apply(Apply(b, TryLock), MoveToTrash) == away.(collector := Moved(g))
                 && Enabled(away.(collector := Moved(g)), DropLock)
                 && Apply(away.(collector := Moved(g)), DropLock) == away.(collector := Removing(g))
               else Enabled(b, MoveToTrash) && Apply(b, MoveToTrash) == away.(collector := Removing(g))
  {
    assert Apply(s, Consider(g)) == s.(collector := Considering(g));
    var b := s.(collector := PinOpen(g));
    assert Enabled(b, TryLock) && Apply(b, TryLock) == s.(collector := Exclusive(g));
  }

  /** Up to the directory in the trash. */
  lemma TakeOut(s: Sys, g: GenerationId) returns (taken: seq<Step>, gone: Sys)
    requires s.collector == Resting && DirOf(s, g).Placed? && g !in s.named && SharersOf(s, g) == {}
    ensures taken == if PIN in DirOf(s, g).files then [Consider(g), OpenPin, TryLock, MoveToTrash, DropLock]
                     else [Consider(g), OpenPin, MoveToTrash]
    ensures IsRun(s, taken) && gone == After(s, taken) && gone.collector == Removing(g)
    ensures DirOf(gone, g) == Trashed(DirOf(s, g).files) && Without(gone, g) == Without(s, g)
  {
    hide Enabled, Apply, IsRun, After;
    Calls(s, g);
    var files := DirOf(s, g).files;
    gone := SetDir(s, g, Trashed(files)).(collector := Removing(g));
    NoSteps(gone);
    var a := Apply(s, Consider(g));
    var b := Apply(a, OpenPin);
    var away: seq<Step>;
    if PIN in files {
      away := [TryLock] + ([MoveToTrash] + ([DropLock] + []));
      FirstStep(gone.(collector := Moved(g)), DropLock, []);
      FirstStep(Apply(b, TryLock), MoveToTrash, [DropLock] + []);
      FirstStep(b, TryLock, [MoveToTrash] + ([DropLock] + []));
    } else {
      away := [MoveToTrash] + [];
      FirstStep(b, MoveToTrash, []);
    }
    FirstStep(a, OpenPin, away);
    taken := [Consider(g)] + ([OpenPin] + away);
    FirstStep(s, Consider(g), [OpenPin] + away);
  }

  /** What a collector leaves in the trash when it is killed, the next one removes. */
  lemma TrashGoes(s: Sys, g: GenerationId, order: seq<Name>)
    requires DirOf(s, g).Trashed? && Enumerates(order, DirOf(s, g).files.Keys)
    ensures var steps := [KillCollector, SweepTrash(g)] + (Removes(order) + [RemoveDir]);
            IsRun(s, steps) && After(s, steps) == Without(s, g)
  {
    hide IsRun, After, Removes;
    var last := Removes(order) + [RemoveDir];
    var a := Apply(s, KillCollector);
    var b := Apply(a, SweepTrash(g));
    assert b == s.(collector := Removing(g));
    RemovesRun(b, g, order);
    FirstStep(a, SweepTrash(g), last);
    FirstStep(s, KillCollector, [SweepTrash(g)] + last);
    assert [KillCollector, SweepTrash(g)] + last == [KillCollector] + ([SweepTrash(g)] + last);
  }

  // ------------------------------------------------------------ what is published and named

  /** A generation published into any reachable state can be pinned at once, and is pinned as
      it was published. */
  lemma PublishedCanBePinned(steps: seq<Step>, g: GenerationId, files: Files, r: ReaderId, order: seq<Name>)
    requires IsRun(Start, steps) && Enabled(After(Start, steps), PublishGen(g, files)) && WellFormed(g, files)
    requires ReaderOf(After(Start, steps), r) == Idle && Enumerates(order, files[MANIFEST].manifest.files.Keys)
    ensures var run := steps + ([PublishGen(g, files)] + PinSteps(r, g, order));
            && IsRun(Start, run) && ReaderOf(After(Start, run), r) == Pinned(g, map[])
            && DirOf(After(Start, run), g) == Placed(files)
  {
    hide IsRun, After, PinSteps;
    var s := After(Start, steps);
    var t := Apply(s, PublishGen(g, files));
    assert Complete(DirOf(t, g), g);
    PinRuns(t, r, g, order);
    FirstStep(s, PublishGen(g, files), PinSteps(r, g, order));
    Then(Start, steps, [PublishGen(g, files)] + PinSteps(r, g, order));
  }

  /** What the record and the checkpoints name stays, with its files, until they name something
      else, whatever collectors and readers do. */
  lemma {:induction false} NamedIsKept(s: Sys, steps: seq<Step>, g: GenerationId)
    requires Inv(s) && IsRun(s, steps) && g in s.named && forall i :: 0 <= i < |steps| ==> !steps[i].NameOnly?
    ensures After(s, steps).named == s.named && DirOf(After(s, steps), g) == DirOf(s, g)
    decreases |steps|
  {
    hide Inv, Apply, Enabled, DirOf;
    if steps != [] {
      NamedStep(s, steps[0], g);
      NamedIsKept(Apply(s, steps[0]), steps[1..], g);
    }
  }

  lemma NamedStep(s: Sys, step: Step, g: GenerationId)
    requires Inv(s) && Enabled(s, step) && g in s.named && !step.NameOnly?
    ensures Inv(Apply(s, step)) && Apply(s, step).named == s.named && DirOf(Apply(s, step), g) == DirOf(s, g)
  {
    InvStep(s, step);
    assert DirOk(s, g) && CollectorOk(s);
  }

  /** The record names what it is told to, and the collector leaves it. */
  lemma NamingKeeps(s: Sys, named: set<GenerationId>, steps: seq<Step>, g: GenerationId)
    requires Inv(s) && Enabled(s, NameOnly(named)) && g in named && IsRun(s, [NameOnly(named)] + steps)
    requires forall i :: 0 <= i < |steps| ==> !steps[i].NameOnly?
    ensures After(s, [NameOnly(named)] + steps).named == named
    ensures DirOf(After(s, [NameOnly(named)] + steps), g) == DirOf(s, g)
  {
    hide Inv, Apply, Enabled, DirOf, IsRun, After;
    InvStep(s, NameOnly(named));
    NamesThem(s, named);
    AfterFirst(s, NameOnly(named), steps);
    NamedIsKept(Apply(s, NameOnly(named)), steps, g);
  }

  lemma NamesThem(s: Sys, named: set<GenerationId>)
    requires Enabled(s, NameOnly(named))
    ensures Apply(s, NameOnly(named)).named == named
    ensures forall g :: DirOf(Apply(s, NameOnly(named)), g) == DirOf(s, g)
  {
  }

  lemma AfterFirst(s: Sys, step: Step, steps: seq<Step>)
    requires IsRun(s, [step] + steps)
    ensures Enabled(s, step) && IsRun(Apply(s, step), steps) && After(s, [step] + steps) == After(Apply(s, step), steps)
  {
    hide Enabled, Apply;
    assert ([step] + steps)[1..] == steps;
  }
}
