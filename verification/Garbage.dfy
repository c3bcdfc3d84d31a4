/** What garbage collection may remove, and what it leaves (src/store.rs:993-1052). */
module Garbage {
  import opened Layout
  import opened Journal
  import opened StoreModel
  import opened StoreWrites
  import opened Disks
  import opened Instances

  function GenerationDirs(fs: Fs): set<GenerationId> {
    set l | l in fs.Keys && l.GenDir? && fs[l] != Absent :: l.gen
  }

  function RunDirs(fs: Fs): set<RunId> {
    set l | l in fs.Keys && l.RunDir? && fs[l] != Absent :: l.run
  }

  lemma DirsAre(fs: Fs)
    ensures forall g :: g in GenerationDirs(fs) <==> Get(fs, GenDir(g)) != Absent
    ensures forall r :: r in RunDirs(fs) <==> Get(fs, RunDir(r)) != Absent
  {
    forall g | Get(fs, GenDir(g)) != Absent ensures g in GenerationDirs(fs) { assert GenDir(g) in fs.Keys; }
    forall r | Get(fs, RunDir(r)) != Absent ensures r in RunDirs(fs) { assert RunDir(r) in fs.Keys; }
  }

  /** Checkpoints whose generation exists (src/store.rs:936-960); their order is
      not modelled. */
  function ListedRefs(fs: Fs): set<CheckpointRef> {
    set l | l in fs.Keys && l.RefEntry? && RefOf(fs, l.id).Some? && IsInPlace(fs, RefOf(fs, l.id).value.generation)
      :: RefOf(fs, l.id).value
  }

  /** The generations the record or a listed checkpoint names (src/store.rs:995-1000). */
  function Referenced(fs: Fs): set<GenerationId> {
    (if RecordOf(fs).Some? && RecordOf(fs).value.latest.Some? then {RecordOf(fs).value.latest.value} else {})
    + set ref | ref in ListedRefs(fs) :: ref.generation
  }

  lemma RefsAreListed(d: Disk, c: CheckpointId)
    requires CrashSafe(d) && RefOf(d.view, c).Some?
    ensures RefOf(d.view, c).value in ListedRefs(d.view) && RefOf(d.view, c).value.id == c
    ensures IsInPlace(d.view, RefOf(d.view, c).value.generation)
  {
    ViewIsGood(d);
    assert RefGood(d.view, d.ledger, c);
    assert RefEntry(c) in d.view.Keys;
  }

  lemma ListedAreRefs(d: Disk, ref: CheckpointRef)
    requires CrashSafe(d) && ref in ListedRefs(d.view)
    ensures RefOf(d.view, ref.id) == Some(ref)
  {
    var l :| l in d.view.Keys && l.RefEntry? && RefOf(d.view, l.id) == Some(ref);
    RefsAreListed(d, l.id);
  }

  /** Every surviving ref is listed, so being referenced is being named at all. */
  lemma ReferencedIsNamed(d: Disk, g: GenerationId)
    requires CrashSafe(d)
    ensures g in Referenced(d.view) <==> !Unnamed(d.view, g)
  {
    hide CrashSafe;
    if g in Referenced(d.view) && !(RecordOf(d.view).Some? && Names(RecordOf(d.view).value, g)) {
      var ref :| ref in ListedRefs(d.view) && ref.generation == g;
      ListedAreRefs(d, ref);
      assert !Unnamed(d.view, g);
    }
    if !Unnamed(d.view, g) && !(RecordOf(d.view).Some? && Names(RecordOf(d.view).value, g)) {
      var c :| RefOf(d.view, c).Some? && RefOf(d.view, c).value.generation == g;
      RefsAreListed(d, c);
    }
  }

  /** Locations collection may touch: those of unnamed runs, and of unnamed
      generations that are not in place or not pinned. */
  ghost predicate IsGarbage(fs: Fs, pinned: set<GenerationId>, l: Loc) {
    match l
    case GenDir(g) => GarbageGen(fs, pinned, g)
    case GenName(g, _) => GarbageGen(fs, pinned, g)
    case GenFile(g, _) => GarbageGen(fs, pinned, g)
    case RunDir(r) => RunUnnamed(fs, r)
    case RunName(r, _) => RunUnnamed(fs, r)
    case RunFile(r, _) => RunUnnamed(fs, r)
    case _ => false
  }

  ghost predicate GarbageGen(fs: Fs, pinned: set<GenerationId>, g: GenerationId) {
    Unnamed(fs, g) && !(IsInPlace(fs, g) && g in pinned)
  }

  ghost predicate OnlyGarbage(a: Fs, b: Fs, pinned: set<GenerationId>) {
    && (forall l :: !IsGarbage(a, pinned, l) ==> Get(a, l) == Get(b, l))
    && (forall g :: IsInPlace(b, g) ==> IsInPlace(a, g))
  }

  /** Nothing committed changes: same record, same refs, and what they name. */
  lemma GarbageIsUncommitted(a: Fs, b: Fs, pinned: set<GenerationId>)
    requires OnlyGarbage(a, b, pinned)
    ensures RecordOf(a) == RecordOf(b) && Get(a, RecordEntry) == Get(b, RecordEntry)
    ensures forall c :: RefOf(a, c) == RefOf(b, c)
    ensures forall g :: Unnamed(a, g) <==> Unnamed(b, g)
    ensures forall r: RunId :: RunUnnamed(a, r) <==> RunUnnamed(b, r)
    ensures forall g :: !GarbageGen(a, pinned, g) ==> IsInPlace(a, g) == IsInPlace(b, g)
  {
    assert Get(a, RecordEntry) == Get(b, RecordEntry);
    var e := Get(a, RecordEntry);
    if e.Link? { assert Get(a, RecordFile(e.inode)) == Get(b, RecordFile(e.inode)); }
    forall c ensures RefOf(a, c) == RefOf(b, c) {
      assert Get(a, RefEntry(c)) == Get(b, RefEntry(c));
      var e := Get(a, RefEntry(c));
      if e.Link? { assert Get(a, RefFile(e.inode)) == Get(b, RefFile(e.inode)); }
    }
    forall g | !GarbageGen(a, pinned, g) ensures IsInPlace(a, g) == IsInPlace(b, g) {
      assert Get(a, GenDir(g)) == Get(b, GenDir(g));
    }
  }

  lemma OnlyGarbageSelf(a: Fs, pinned: set<GenerationId>)
    ensures OnlyGarbage(a, a, pinned)
  {
  }

  lemma OnlyGarbageGen(a: Fs, b: Fs, c: Fs, pinned: set<GenerationId>, g: GenerationId)
    requires OnlyGarbage(a, b, pinned) && Only(InGen(g), b, c) && GarbageGen(a, pinned, g)
    requires !IsInPlace(c, g)
    ensures OnlyGarbage(a, c, pinned)
  {
    forall h | IsInPlace(c, h) ensures IsInPlace(a, h) { assert !OfGen(GenDir(h), g); }
    forall l | !IsGarbage(a, pinned, l) ensures Get(a, l) == Get(c, l) {
      assert !OfGen(l, g);
    }
  }

  lemma OnlyGarbageRun(a: Fs, b: Fs, c: Fs, pinned: set<GenerationId>, r: RunId)
    requires OnlyGarbage(a, b, pinned) && Only(InRun(r), b, c) && RunUnnamed(a, r)
    ensures OnlyGarbage(a, c, pinned)
  {
    forall l | !IsGarbage(a, pinned, l) ensures Get(a, l) == Get(c, l) {
      assert !OfRun(l, r);
    }
    forall h | IsInPlace(c, h) ensures IsInPlace(a, h) { assert !OfRun(GenDir(h), r); }
  }

  /** Everything that is left is named, or in place and pinned. */
  ghost predicate NoGarbage(fs: Fs, pinned: set<GenerationId>) {
    && (forall g :: Get(fs, GenDir(g)) != Absent ==> IsInPlace(fs, g) && (!Unnamed(fs, g) || g in pinned))
    && (forall r :: Get(fs, RunDir(r)) != Absent ==> !RunUnnamed(fs, r))
  }

  /** Collection is exact: afterwards the directories are exactly the generations
      that were in place and are named or pinned, and the only run is the one the
      record names. */
  lemma CollectionIsExact(a: Disk, b: Disk, pinned: set<GenerationId>)
    requires CrashSafe(a) && OnlyGarbage(a.view, b.view, pinned) && NoGarbage(b.view, pinned)
    ensures forall g :: Get(b.view, GenDir(g)) ==
              if IsInPlace(a.view, g) && (g in Referenced(a.view) || g in pinned)
              then DirVal(InPlace) else Absent
    ensures forall r: RunId :: Get(b.view, RunDir(r)) ==
              if RecordOf(a.view).Some? && RecordOf(a.view).value.phase.Run() == Some(r)
              then Get(a.view, RunDir(r)) else Absent
  {
    hide CrashSafe, Referenced;
    GarbageIsUncommitted(a.view, b.view, pinned);
    forall g ensures Get(b.view, GenDir(g)) ==
              if IsInPlace(a.view, g) && (g in Referenced(a.view) || g in pinned)
              then DirVal(InPlace) else Absent
    {
      ReferencedIsNamed(a, g);
      if !GarbageGen(a.view, pinned, g) {
        assert !IsGarbage(a.view, pinned, GenDir(g));
        if !IsInPlace(a.view, g) { NamedIsInPlace(a, g); }
      }
    }
    forall r: RunId ensures Get(b.view, RunDir(r)) ==
              if RecordOf(a.view).Some? && RecordOf(a.view).value.phase.Run() == Some(r)
              then Get(a.view, RunDir(r)) else Absent
    {
      if !RunUnnamed(a.view, r) { assert !IsGarbage(a.view, pinned, RunDir(r)); }
    }
  }

  lemma NamedIsInPlace(d: Disk, g: GenerationId)
    requires CrashSafe(d) && !Unnamed(d.view, g)
    ensures IsInPlace(d.view, g) && Complete(d.view, d.ledger, g)
  {
    ViewIsGood(d);
    if !(RecordOf(d.view).Some? ==> !Names(RecordOf(d.view).value, g)) {
      assert RecordGood(d.view, d.ledger);
    } else {
      var c :| RefOf(d.view, c).Some? && RefOf(d.view, c).value.generation == g;
      assert RefGood(d.view, d.ledger, c);
    }
  }

  // ------------------------------------------------------------------ the loops

  ghost predicate RunsLeft(fs: Fs, todo: set<RunId>) {
    forall r :: Get(fs, RunDir(r)) != Absent ==> r in todo || !RunUnnamed(fs, r)
  }

  ghost predicate GensLeft(fs: Fs, pinned: set<GenerationId>, todo: set<GenerationId>) {
    forall g :: Get(fs, GenDir(g)) != Absent ==>
      g in todo || (IsInPlace(fs, g) && (!Unnamed(fs, g) || g in pinned))
  }

  lemma RunDirsAreOld(d: Disk)
    requires CrashSafe(d)
    ensures RunsLeft(d.view, RunDirs(d.view))
    ensures forall r :: r in RunDirs(d.view) ==> r < d.ledger.nextRun
  {
    ViewIsGood(d);
    DirsAre(d.view);
    forall r | d.ledger.nextRun <= r ensures r !in RunDirs(d.view) { assert RunFresh(d.view, r); }
  }

  lemma GenDirsAreOld(d: Disk, pinned: set<GenerationId>)
    requires CrashSafe(d)
    ensures GensLeft(d.view, pinned, GenerationDirs(d.view))
    ensures forall g :: g in GenerationDirs(d.view) ==> g < d.ledger.nextGen
  {
    ViewIsGood(d);
    DirsAre(d.view);
    forall g | d.ledger.nextGen <= g ensures g !in GenerationDirs(d.view) { assert GenFresh(d.view, g); }
  }

  lemma LiveRunIsNamed(fs: Fs, live: Option<RunId>, r: RunId)
    requires RecordOf(fs).Some? && live == RecordOf(fs).value.phase.Run()
    ensures live == Some(r) <==> !RunUnnamed(fs, r)
  {
  }

  lemma RunsLeftStep(a: Fs, b: Fs, todo: set<RunId>, r: RunId)
    requires RunsLeft(a, todo) && r in todo
    requires (a == b && !RunUnnamed(a, r)) || (Only(InRun(r), a, b) && Get(b, RunDir(r)) == Absent)
    ensures RunsLeft(b, todo - {r})
  {
    if a != b {
      OnlyKeeps(InRun(r), a, b);
      forall q | Get(b, RunDir(q)) != Absent ensures q in todo - {r} || !RunUnnamed(b, q) {
        assert !OfRun(RunDir(q), r);
      }
    }
  }

  lemma NotInPlaceIsGarbage(d: Disk, pinned: set<GenerationId>, g: GenerationId)
    requires CrashSafe(d) && !IsInPlace(d.view, g)
    ensures Unnamed(d.view, g) && GarbageGen(d.view, pinned, g)
  {
    if !Unnamed(d.view, g) { NamedIsInPlace(d, g); }
  }

  lemma GarbageAsBefore(a: Fs, b: Fs, pinned: set<GenerationId>, g: GenerationId)
    requires OnlyGarbage(a, b, pinned) && Get(a, GenDir(g)) == Get(b, GenDir(g)) && Unnamed(b, g)
    requires !IsInPlace(b, g) || g !in pinned
    ensures GarbageGen(a, pinned, g)
  {
    GarbageIsUncommitted(a, b, pinned);
  }

  lemma GensLeftStep(a: Fs, b: Fs, pinned: set<GenerationId>, todo: set<GenerationId>, g: GenerationId)
    requires GensLeft(a, pinned, todo) && g in todo
    requires
      || (a == b && IsInPlace(a, g) && (!Unnamed(a, g) || g in pinned))
      || (Only(InGen(g), a, b) && Get(b, GenDir(g)) == Absent)
      || (a == b && Get(b, GenDir(g)) == Absent)
    ensures GensLeft(b, pinned, todo - {g})
  {
    if Only(InGen(g), a, b) {
      OnlyKeeps(InGen(g), a, b);
      forall h | Get(b, GenDir(h)) != Absent && h != g
        ensures h in todo - {g} || (IsInPlace(b, h) && (!Unnamed(b, h) || h in pinned))
      {
        assert Unnamed(a, h) <==> Unnamed(b, h);
      }
    }
  }

  lemma OnlyGarbageTransitive(a: Fs, b: Fs, c: Fs, pinned: set<GenerationId>)
    requires OnlyGarbage(a, b, pinned) && OnlyGarbage(b, c, pinned)
    ensures OnlyGarbage(a, c, pinned)
  {
    GarbageIsUncommitted(a, b, pinned);
    forall l | !IsGarbage(a, pinned, l) ensures Get(a, l) == Get(c, l) {
      assert Get(a, l) == Get(b, l);
      assert !IsGarbage(b, pinned, l);
    }
  }

  lemma NothingLeft(a: Fs, b: Fs, pinned: set<GenerationId>)
    requires RunsLeft(a, {}) && GensLeft(b, pinned, {}) && OnlyGarbage(a, b, pinned)
    requires forall r :: Get(b, RunDir(r)) == Get(a, RunDir(r))
    ensures NoGarbage(b, pinned)
  {
    GarbageIsUncommitted(a, b, pinned);
  }

  /** The user sees no difference. */
  lemma GarbageKeepsState(a: Disk, b: Disk, pinned: set<GenerationId>)
    requires CrashSafe(a) && b.ledger == a.ledger && OnlyGarbage(a.view, b.view, pinned)
    ensures State(b) == State(a) && FewerFinals(a, b)
    ensures RecordOf(b.view) == RecordOf(a.view) && SameRefs(a.view, b.view)
  {
    hide CrashSafe, State;
    GarbageIsUncommitted(a.view, b.view, pinned);
    GrowsSelf(a.ledger);
    if RecordOf(a.view).Some? && RecordOf(a.view).value.phase.Run().Some? {
      var r := RecordOf(a.view).value.phase.Run().value;
      forall n ensures Get(a.view, RunFile(r, n)) == Get(b.view, RunFile(r, n)) {
        assert !IsGarbage(a.view, pinned, RunFile(r, n));
      }
    }
    StateKept(a, b);
  }
}
