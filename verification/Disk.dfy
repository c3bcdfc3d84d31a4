/**
  A disk as a value: what processes see, what the drive was asked to do since
  boot, and the ledger of what has been committed. `CrashSafe` speaks about
  every crash from here back to boot; `Valid` adds what the next operation
  relies on.
 */
module Disks {
  import opened Layout
  import opened Journal
  import opened StoreModel
  import opened StoreWrites
  import opened RunDisks

  datatype Disk = Disk(journaled: bool, view: Fs, base: Fs, log: seq<Entry>, ledger: Ledger)

  /** A crash at any point so far leaves a good disk. */
  ghost predicate CrashSafe(d: Disk)
    ensures CrashSafe(d) ==> LedgerOk(d.ledger)
  {
    && d.view == View(d.base, d.log)
    && Safe(d.base, d.log, d.journaled, d.ledger)
    && LedgerOk(d.ledger)
    && ImagesGrow(d.base, d.log)
  }

  /** Crash safe, everything in place is complete, and everything committed is
      ordered before whatever is written next. */
  ghost predicate Valid(d: Disk)
    ensures Valid(d) ==> CrashSafe(d)
  {
    && CrashSafe(d)
    && InPlaceComplete(d.view, d.ledger)
    && Settled(d.view, Pending(d.log), d.journaled, d.ledger)
  }

  /** `b` is a later moment of the same boot. */
  ghost predicate Later(a: Disk, b: Disk)
    ensures Later(a, b) ==> Grows(a.ledger, b.ledger) && a.journaled == b.journaled
  {
    && a.journaled == b.journaled && a.base == b.base
    && a.log <= b.log && Grows(a.ledger, b.ledger)
  }

  function Written(d: Disk, l: Loc, v: Val, next: Ledger): Disk {
    d.(view := d.view[l := v], log := d.log + [Put(l, v)], ledger := next)
  }

  function SyncedOn(d: Disk, o: Obj): Disk {
    d.(log := d.log + [Sync(o)])
  }

  function Noted(d: Disk, next: Ledger): Disk {
    d.(ledger := next)
  }

  function After(pending: set<Loc>, o: Obj): set<Loc> {
    set l | l in pending && ObjOf(l) != o
  }

  function NextGen(a: Ledger): Ledger { a.(nextGen := a.nextGen + 1) }

  function NextRun(a: Ledger): Ledger { a.(nextRun := a.nextRun + 1) }

  function WithRecord(a: Ledger, rec: Record): Ledger {
    a.(nextInode := a.nextInode + 1, records := a.records[a.nextInode := rec])
  }

  function WithRef(a: Ledger, ref: CheckpointRef): Ledger {
    a.(nextInode := a.nextInode + 1, refs := a.refs[a.nextInode := ref])
  }

  function WithRun(a: Ledger, r: RunId, names: set<Name>): Ledger {
    a.(prepared := a.prepared[r := names])
  }

  function WithGeneration(a: Ledger, g: GenerationId, files: Files): Ledger {
    a.(published := a.published[g := files])
  }

  lemma GrowsSelf(a: Ledger)
    ensures Grows(a, a)
  {
  }

  lemma GrowsTransitive(a: Ledger, b: Ledger, c: Ledger)
    requires Grows(a, b) && Grows(b, c)
    ensures Grows(a, c)
  {
  }

  lemma NextGrows(a: Ledger)
    requires LedgerOk(a)
    ensures LedgerOk(NextGen(a)) && Grows(a, NextGen(a))
    ensures LedgerOk(NextRun(a)) && Grows(a, NextRun(a))
  {
    hide WellFormed;
  }

  lemma TempGrows(a: Ledger, rec: Record, ref: CheckpointRef)
    requires LedgerOk(a)
    ensures LedgerOk(WithRecord(a, rec)) && Grows(a, WithRecord(a, rec))
    ensures LedgerOk(WithRef(a, ref)) && Grows(a, WithRef(a, ref))
  {
    hide WellFormed, Started;
  }

  lemma ViewIsGood(d: Disk)
    requires CrashSafe(d)
    ensures Good(d.view, d.ledger, d.journaled)
  {
    ViewIsCrashState(d.base, d.log, d.journaled);
  }

  lemma NextIsFresh(d: Disk)
    requires CrashSafe(d)
    ensures d.ledger.nextGen !in d.ledger.published && GenFresh(d.view, d.ledger.nextGen)
    ensures d.ledger.nextRun !in d.ledger.prepared && RunFresh(d.view, d.ledger.nextRun)
    ensures d.ledger.nextInode !in d.ledger.records && d.ledger.nextInode !in d.ledger.refs
    ensures Get(d.view, RecordEntry) != Link(d.ledger.nextInode)
    ensures forall c :: Get(d.view, RefEntry(c)) != Link(d.ledger.nextInode)
  {
    hide WellFormed, Complete, RunComplete, InPlaceComplete;
    ViewIsGood(d);
    forall c ensures Get(d.view, RefEntry(c)) != Link(d.ledger.nextInode) {
      assert RefGood(d.view, d.ledger, c);
    }
  }

  lemma WrittenLog(d: Disk, l: Loc, v: Val, next: Ledger)
    ensures Pending(Written(d, l, v, next).log) == Pending(d.log) + {l}
    ensures d.view == View(d.base, d.log) ==> Written(d, l, v, next).view == View(d.base, Written(d, l, v, next).log)
  {
    assert (d.log + [Put(l, v)])[..|d.log|] == d.log;
  }

  lemma SyncedLog(d: Disk, o: Obj)
    ensures Pending(SyncedOn(d, o).log) == After(Pending(d.log), o)
    ensures View(d.base, SyncedOn(d, o).log) == View(d.base, d.log)
  {
    assert (d.log + [Sync(o)])[..|d.log|] == d.log;
  }

  ghost predicate WriteIsGood(d: Disk, l: Loc, v: Val, next: Ledger) {
    forall fs ::
      Good(fs, d.ledger, d.journaled) && Extends(fs, d.view, Pending(d.log), d.journaled, l)
      ==> Good(fs[l := v], next, d.journaled)
  }

  lemma WrittenIsSafe(d: Disk, l: Loc, v: Val, next: Ledger)
    requires CrashSafe(d) && Grows(d.ledger, next) && LedgerOk(next)
    requires WriteIsGood(d, l, v, next)
    requires l.RunFile? && l.name == ROOTFS ==> DiskImage(Get(d.view, l)) <= DiskImage(v)
    ensures CrashSafe(Written(d, l, v, next)) && Later(d, Written(d, l, v, next))
    ensures Pending(Written(d, l, v, next).log) == Pending(d.log) + {l}
  {
    hide Good;
    WrittenLog(d, l, v, next);
    GrowsOver(d.base, d.log, Put(l, v));
    SafePut(d.base, d.log, d.journaled, d.ledger, next, l, v);
  }

  lemma SyncedIsSafe(d: Disk, o: Obj)
    requires CrashSafe(d)
    ensures CrashSafe(SyncedOn(d, o)) && Later(d, SyncedOn(d, o))
    ensures Pending(SyncedOn(d, o).log) == After(Pending(d.log), o)
  {
    hide Good;
    SyncedLog(d, o);
    GrowsOver(d.base, d.log, Sync(o));
    SafeSync(d.base, d.log, d.journaled, d.ledger, o);
  }

  lemma SyncedIsValid(d: Disk, o: Obj)
    requires Valid(d)
    ensures Valid(SyncedOn(d, o)) && Later(d, SyncedOn(d, o))
    ensures Pending(SyncedOn(d, o).log) == After(Pending(d.log), o)
  {
    hide Good, CrashSafe, Settled, InPlaceComplete;
    SyncedIsSafe(d, o);
    SettledShrinks(d.view, Pending(d.log), After(Pending(d.log), o), d.journaled, d.ledger);
  }

  lemma NotedIsValid(d: Disk, next: Ledger)
    requires Valid(d) && Grows(d.ledger, next) && LedgerOk(next)
    ensures Valid(Noted(d, next)) && Later(d, Noted(d, next))
  {
    hide Good, Settled, InPlaceComplete, Safe, LedgerOk;
    SafeGrows(d.base, d.log, d.journaled, d.ledger, next);
    SettledGrows(d.view, Pending(d.log), d.journaled, d.ledger, next);
  }

  // -------------------------------------------------------- staging a generation

  /** `g` is being written: it was never published and its directory is staging. */
  ghost predicate Staged(d: Disk, g: GenerationId) {
    && g < d.ledger.nextGen && g !in d.ledger.published
    && Get(d.view, GenDir(g)) == DirVal(Staging)
  }

  ghost predicate ChildrenAre(fs: Fs, g: GenerationId, files: Files) {
    forall n :: ChildIs(fs, g, n, files)
  }

  lemma StagedWriteIsGood(d: Disk, g: GenerationId, l: Loc, v: Val)
    requires g < d.ledger.nextGen && g !in d.ledger.published && OfGen(l, g)
    requires l.GenDir? ==> v != DirVal(InPlace)
    ensures WriteIsGood(d, l, v, d.ledger)
  {
    hide Good, Extends;
    forall fs | Good(fs, d.ledger, d.journaled) ensures Good(fs[l := v], d.ledger, d.journaled) {
      StagingWrite(fs, d.ledger, d.journaled, g, l, v);
    }
  }

  lemma StagedWriteIsValid(d: Disk, g: GenerationId, l: Loc, v: Val)
    requires Valid(d) && g < d.ledger.nextGen && g !in d.ledger.published && OfGen(l, g)
    requires l.GenDir? ==> v != DirVal(InPlace)
    ensures Valid(Written(d, l, v, d.ledger)) && Later(d, Written(d, l, v, d.ledger))
  {
    hide Good, Settled, CrashSafe, WriteIsGood, LedgerOk, Pending, View;
    assert IsInPlace(d.view, g) ==> Complete(d.view, d.ledger, g);
    GenWriteSettled(d.view, Pending(d.log), d.journaled, d.ledger, g, l, v);
    StagedWriteIsGood(d, g, l, v);
    GrowsSelf(d.ledger);
    WrittenIsSafe(d, l, v, d.ledger);
  }

  lemma StageSteps(d: Disk)
    requires Valid(d)
    ensures var g := d.ledger.nextGen;
            var d1 := Noted(d, NextGen(d.ledger));
            var d2 := Written(d1, GenDir(g), DirVal(Staging), d1.ledger);
            && Valid(d1) && Later(d, d1) && Valid(d2) && Later(d, d2)
            && Staged(d2, g) && ChildrenAre(d2.view, g, map[]) && Only(InGen(g), d.view, d2.view)
  {
    hide Good, Settled, InPlaceComplete, CrashSafe, WriteIsGood, LedgerOk, Grows, Pending, View;
    var g := d.ledger.nextGen;
    NextIsFresh(d);
    NextGrows(d.ledger);
    var d1 := Noted(d, NextGen(d.ledger));
    NotedIsValid(d, d1.ledger);
    StagedWriteIsValid(d1, g, GenDir(g), DirVal(Staging));
  }

  function ChildDisk(d: Disk, g: GenerationId, n: Name, c: Content): Disk {
    var d1 := Written(d, GenName(g, n), Present, d.ledger);
    Written(d1, GenFile(g, n), FileVal(c), d.ledger)
  }

  lemma ChildSteps(d: Disk, g: GenerationId, n: Name, c: Content, files: Files)
    requires Valid(d) && Staged(d, g) && ChildrenAre(d.view, g, files)
    ensures var d1 := Written(d, GenName(g, n), Present, d.ledger);
            Valid(d1) && Later(d, d1) && Only(InGen(g), d.view, d1.view) && Staged(d1, g)
    ensures var d2 := ChildDisk(d, g, n, c);
            && Valid(d2) && Later(d, d2) && Only(InGen(g), d.view, d2.view) && Staged(d2, g)
            && ChildrenAre(d2.view, g, files[n := c])
  {
    hide Good, Settled, InPlaceComplete, CrashSafe, WriteIsGood, LedgerOk, Grows, Pending, View;
    var d1 := Written(d, GenName(g, n), Present, d.ledger);
    StagedWriteIsValid(d, g, GenName(g, n), Present);
    StagedWriteIsValid(d1, g, GenFile(g, n), FileVal(c));
    var d2 := ChildDisk(d, g, n, c);
    var files' := files[n := c];
    forall m ensures ChildIs(d2.view, g, m, files') {
      assert ChildIs(d.view, g, m, files);
    }
  }

  lemma UnlinkSteps(d: Disk, g: GenerationId, n: Name, files: Files)
    requires Valid(d) && Staged(d, g) && ChildrenAre(d.view, g, files)
    ensures var d1 := Written(d, GenName(g, n), Absent, d.ledger);
            && Valid(d1) && Later(d, d1) && Only(InGen(g), d.view, d1.view) && Staged(d1, g)
            && ChildrenAre(d1.view, g, files - {n})
  {
    hide Good, Settled, InPlaceComplete, CrashSafe, WriteIsGood, LedgerOk, Grows, Pending, View;
    var d1 := Written(d, GenName(g, n), Absent, d.ledger);
    StagedWriteIsValid(d, g, GenName(g, n), Absent);
    var files' := files - {n};
    forall m ensures ChildIs(d1.view, g, m, files') {
      assert ChildIs(d.view, g, m, files);
    }
  }

  // ------------------------------------------------------------- syncing a tree

  /** A file of a generation or run directory. */
  function FileIn(s: Scope, n: Name): Loc {
    match s
    case InGen(g) => GenFile(g, n)
    case InRun(r) => RunFile(r, n)
    case _ => RecordEntry
  }

  ghost predicate FilesSynced(pending: set<Loc>, s: Scope, names: set<Name>) {
    forall n :: n in names ==> FileIn(s, n) !in pending
  }

  /** Every file of the directory and every entry in it. */
  ghost predicate TreeSynced(pending: set<Loc>, g: GenerationId, names: set<Name>) {
    FilesSynced(pending, InGen(g), names) && forall n :: GenName(g, n) !in pending
  }

  lemma NoneSynced(pending: set<Loc>, s: Scope)
    ensures forall names: set<Name> :: FilesSynced(pending, s, names - names)
  {
  }

  lemma OneMoreSynced(pending: set<Loc>, s: Scope, names: set<Name>, n: Name)
    requires FilesSynced(pending, s, names)
    ensures FilesSynced(After(pending, ObjOf(FileIn(s, n))), s, names + {n})
  {
  }

  lemma TreeIsSynced(pending: set<Loc>, g: GenerationId, names: set<Name>)
    requires FilesSynced(pending, InGen(g), names)
    ensures TreeSynced(After(pending, GenDirObj(g)), g, names)
  {
  }

  ghost predicate RunTreeSynced(pending: set<Loc>, r: RunId, names: set<Name>) {
    && FilesSynced(pending, InRun(r), names) && RunDir(r) !in pending
    && forall n :: RunName(r, n) !in pending
  }

  lemma RunTreeIsSynced(pending: set<Loc>, r: RunId, names: set<Name>)
    requires FilesSynced(pending, InRun(r), names)
    ensures RunTreeSynced(After(After(pending, RunDirObj(r)), RunsDir), r, names)
  {
  }

  // ------------------------------------------------------------------ publishing

  lemma PublishIsGood(d: Disk, g: GenerationId, files: Files)
    requires g < d.ledger.nextGen && g !in d.ledger.published && ChildrenAre(d.view, g, files)
    requires TreeSynced(Pending(d.log), g, files.Keys)
    ensures WriteIsGood(d, GenDir(g), DirVal(InPlace), WithGeneration(d.ledger, g, files))
  {
    hide Good, Extends;
    var next := WithGeneration(d.ledger, g, files);
    forall fs | Good(fs, d.ledger, d.journaled) && Extends(fs, d.view, Pending(d.log), d.journaled, GenDir(g))
      ensures Good(fs[GenDir(g) := DirVal(InPlace)], next, d.journaled)
    {
      PublishWrite(fs, d.view, Pending(d.log), d.ledger, next, d.journaled, g, files);
    }
  }

  lemma PublishLedger(a: Ledger, g: GenerationId, files: Files)
    requires LedgerOk(a) && g < a.nextGen && g !in a.published && WellFormed(g, files) && Started(files, a.nextRun)
    ensures LedgerOk(WithGeneration(a, g, files))
    ensures Grows(a, WithGeneration(a, g, files))
  {
    hide WellFormed;
  }

  /** The rename of a synced staging directory, and the directory sync after it. */
  lemma PublishSteps(d: Disk, g: GenerationId, files: Files)
    requires Valid(d) && Staged(d, g) && ChildrenAre(d.view, g, files) && WellFormed(g, files)
    requires Started(files, d.ledger.nextRun)
    requires TreeSynced(Pending(d.log), g, files.Keys)
    ensures var next := WithGeneration(d.ledger, g, files);
            var d1 := Written(d, GenDir(g), DirVal(InPlace), next);
            var d2 := SyncedOn(d1, GenerationsDir);
            && CrashSafe(d1) && Later(d, d1) && (d1.journaled ==> Valid(d1))
            && Valid(d2) && Later(d, d2)
            && Only(InGen(g), d.view, d2.view) && IsInPlace(d2.view, g)
  {
    hide Good, Settled, InPlaceComplete, CrashSafe, WriteIsGood, LedgerOk, Grows, Pending, View, WellFormed;
    var next := WithGeneration(d.ledger, g, files);
    var l, v := GenDir(g), DirVal(InPlace);
    PublishIsGood(d, g, files);
    PublishLedger(d.ledger, g, files);
    WrittenIsSafe(d, l, v, next);
    var d1 := Written(d, l, v, next);
    PublishSettles(d.view, Pending(d.log), d.journaled, d.ledger, next, g, files);
    SyncedIsSafe(d1, GenerationsDir);
    var pending2 := After(Pending(d1.log), GenerationsDir);
    PublishSettled(d.view, Pending(d.log), pending2, d.journaled, d.ledger, next, g, files);
  }

  // --------------------------------------------------------------- the record

  /** What the record may come to name: a generation in place, and no run, the
      run it already names, or one whose directory is ready. */
  ghost predicate MayCommit(d: Disk, rec: Record) {
    && (rec.latest.Some? ==> IsInPlace(d.view, rec.latest.value))
    && (rec.phase.Run().Some? ==>
          || (RecordOf(d.view).Some? && RecordOf(d.view).value.phase.Run() == rec.phase.Run())
          || (&& RunComplete(d.view, d.ledger, rec.phase.Run().value)
              && RunSettled(Pending(d.log), d.journaled, d.ledger, rec.phase.Run().value)))
  }

  function RecordTempDisk(d: Disk, rec: Record): Disk {
    var t := d.ledger.nextInode;
    Written(d, RecordFile(t), RecordVal(rec), WithRecord(d.ledger, rec))
  }

  lemma MayCommitKept(a: Disk, b: Disk, rec: Record)
    requires MayCommit(a, rec) && a.journaled == b.journaled
    requires Only(InRecord, a.view, b.view) && RecordOf(b.view) == RecordOf(a.view)
    requires b.ledger.prepared == a.ledger.prepared && Pending(b.log) <= Pending(a.log)
    ensures MayCommit(b, rec)
  {
    hide Pending;
    if rec.phase.Run().Some? {
      var r := rec.phase.Run().value;
      if RunComplete(a.view, a.ledger, r) {
        forall n | n in b.ledger.prepared[r] ensures RunChild(b.view, r, n) { assert RunChild(a.view, r, n); }
      }
    }
  }

  lemma TempWriteIsGood(d: Disk, l: Loc, v: Val, next: Ledger)
    requires (l.RecordFile? && l.inode !in d.ledger.records) || (l.RefFile? && l.inode !in d.ledger.refs)
    requires Grows(d.ledger, next)
    ensures WriteIsGood(d, l, v, next)
  {
    hide Good, Extends, Grows;
    forall fs | Good(fs, d.ledger, d.journaled) ensures Good(fs[l := v], next, d.journaled) {
      TempWrite(fs, d.ledger, d.journaled, l, v);
      GoodGrows(fs[l := v], d.ledger, next, d.journaled);
    }
  }

  lemma RecordTempSteps(d: Disk, rec: Record)
    requires Valid(d)
    ensures var d1 := RecordTempDisk(d, rec);
            && Valid(d1) && Later(d, d1) && Only(InRecord, d.view, d1.view)
            && RecordOf(d1.view) == RecordOf(d.view)
    ensures var t := d.ledger.nextInode;
            var d2 := SyncedOn(RecordTempDisk(d, rec), RecordTemp(t));
            && Valid(d2) && Later(d, d2)
            && Pending(d2.log) <= Pending(d.log) && RecordFile(t) !in Pending(d2.log)
  {
    hide Good, Settled, InPlaceComplete, CrashSafe, WriteIsGood, LedgerOk, Grows, Pending, View;
    var t := d.ledger.nextInode;
    var l, v := RecordFile(t), RecordVal(rec);
    var d1 := RecordTempDisk(d, rec);
    var next := d1.ledger;
    NextIsFresh(d);
    TempGrows(d.ledger, rec, CheckpointRef(0, None, 0, 0));
    TempWriteIsGood(d, l, v, next);
    WrittenIsSafe(d, l, v, next);
    OtherWriteSettled(d.view, Pending(d.log), d.journaled, d.ledger, l, v);
    SettledGrows(d1.view, Pending(d1.log), d.journaled, d.ledger, next);
    SyncedIsValid(d1, RecordTemp(t));
  }

  lemma RecordRenameIsGood(d: Disk, t: Inode)
    requires Valid(d) && t in d.ledger.records && RecordFile(t) !in Pending(d.log)
    requires Get(d.view, RecordFile(t)) == RecordVal(d.ledger.records[t])
    requires MayCommit(d, d.ledger.records[t])
    ensures WriteIsGood(d, RecordEntry, Link(t), d.ledger)
  {
    hide Good, Extends, Settled, InPlaceComplete, CrashSafe;
    forall fs | Good(fs, d.ledger, d.journaled) && Extends(fs, d.view, Pending(d.log), d.journaled, RecordEntry)
      ensures Good(fs[RecordEntry := Link(t)], d.ledger, d.journaled)
    {
      RecordWrite(fs, d.view, Pending(d.log), d.ledger, d.journaled, t);
    }
  }

  lemma RecordRenameSteps(d: Disk, t: Inode)
    requires Valid(d) && t in d.ledger.records && RecordFile(t) !in Pending(d.log)
    requires Get(d.view, RecordFile(t)) == RecordVal(d.ledger.records[t])
    requires MayCommit(d, d.ledger.records[t])
    ensures var d1 := Written(d, RecordEntry, Link(t), d.ledger);
            var d2 := SyncedOn(d1, InstanceDir);
            && CrashSafe(d1) && Later(d, d1) && (d1.journaled ==> Valid(d1))
            && Valid(d2) && Later(d, d2)
            && Only(InRecord, d.view, d2.view) && RecordOf(d2.view) == Some(d.ledger.records[t])
            && RecordEntry !in Pending(d2.log) && RecordFile(t) !in Pending(d2.log)
  {
    hide Good, Settled, InPlaceComplete, CrashSafe, WriteIsGood, LedgerOk, Grows, Pending, View;
    var l, v := RecordEntry, Link(t);
    RecordRenameIsGood(d, t);
    GrowsSelf(d.ledger);
    WrittenIsSafe(d, l, v, d.ledger);
    var d1 := Written(d, l, v, d.ledger);
    SyncedIsSafe(d1, InstanceDir);
    EntrySettled(d.view, Pending(d.log), Pending(d1.log), d.journaled, d.ledger, l, v);
    EntrySettled(d.view, Pending(d.log), After(Pending(d1.log), InstanceDir), d.journaled, d.ledger, l, v);
  }

  // ---------------------------------------------------------- checkpoint refs

  ghost predicate OtherRefsSame(a: Fs, b: Fs, c: CheckpointId) {
    forall e :: e != c ==> RefOf(a, e) == RefOf(b, e)
  }

  function RefTempDisk(d: Disk, ref: CheckpointRef): Disk {
    var t := d.ledger.nextInode;
    Written(d, RefFile(t), RefVal(ref), WithRef(d.ledger, ref))
  }

  lemma RefTempSteps(d: Disk, ref: CheckpointRef)
    requires Valid(d)
    ensures var d1 := RefTempDisk(d, ref);
            && Valid(d1) && Later(d, d1) && Only(InRefs, d.view, d1.view)
            && (forall c :: OtherRefsSame(d.view, d1.view, c) && RefOf(d.view, c) == RefOf(d1.view, c))
    ensures var t := d.ledger.nextInode;
            var d2 := SyncedOn(RefTempDisk(d, ref), RefTemp(t));
            && Valid(d2) && Later(d, d2) && RefFile(t) !in Pending(d2.log)
  {
    hide Good, Settled, InPlaceComplete, CrashSafe, WriteIsGood, LedgerOk, Grows, Pending, View;
    var t := d.ledger.nextInode;
    var l, v := RefFile(t), RefVal(ref);
    var d1 := RefTempDisk(d, ref);
    var next := d1.ledger;
    NextIsFresh(d);
    TempGrows(d.ledger, Record(None, Stopped), ref);
    TempWriteIsGood(d, l, v, next);
    WrittenIsSafe(d, l, v, next);
    OtherWriteSettled(d.view, Pending(d.log), d.journaled, d.ledger, l, v);
    SettledGrows(d1.view, Pending(d1.log), d.journaled, d.ledger, next);
    SyncedIsValid(d1, RefTemp(t));
  }

  /** What a ref's directory entry may come to hold. */
  ghost predicate MayLink(d: Disk, c: CheckpointId, v: Val) {
    || v == Absent
    || (&& v.Link? && v.inode in d.ledger.refs && Get(d.view, RefFile(v.inode)) == RefVal(d.ledger.refs[v.inode])
        && RefFile(v.inode) !in Pending(d.log) && d.ledger.refs[v.inode].id == c
        && IsInPlace(d.view, d.ledger.refs[v.inode].generation))
  }

  lemma RefWriteIsGood(d: Disk, c: CheckpointId, v: Val)
    requires Valid(d) && MayLink(d, c, v)
    ensures WriteIsGood(d, RefEntry(c), v, d.ledger)
  {
    hide Good, Extends, Settled, InPlaceComplete, CrashSafe;
    forall fs | Good(fs, d.ledger, d.journaled) && Extends(fs, d.view, Pending(d.log), d.journaled, RefEntry(c))
      ensures Good(fs[RefEntry(c) := v], d.ledger, d.journaled)
    {
      RefWrite(fs, d.view, Pending(d.log), d.ledger, d.journaled, c, v);
    }
  }

  /** Linking a synced ref into place, or unlinking one, and the directory sync. */
  lemma RefEntrySteps(d: Disk, c: CheckpointId, v: Val)
    requires Valid(d) && MayLink(d, c, v)
    ensures var d1 := Written(d, RefEntry(c), v, d.ledger);
            var d2 := SyncedOn(d1, CheckpointsDir);
            && CrashSafe(d1) && Later(d, d1) && (d1.journaled ==> Valid(d1))
            && Valid(d2) && Later(d, d2)
            && Only(InRefs, d.view, d2.view) && OtherRefsSame(d.view, d2.view, c)
            && RefOf(d2.view, c) == (if v == Absent then None else Some(d.ledger.refs[v.inode]))
            && RefEntry(c) !in Pending(d2.log) && (v.Link? ==> RefFile(v.inode) !in Pending(d2.log))
  {
    hide Good, Settled, InPlaceComplete, CrashSafe, WriteIsGood, LedgerOk, Grows, Pending, View;
    var l := RefEntry(c);
    RefWriteIsGood(d, c, v);
    GrowsSelf(d.ledger);
    WrittenIsSafe(d, l, v, d.ledger);
    var d1 := Written(d, l, v, d.ledger);
    SyncedIsSafe(d1, CheckpointsDir);
    EntrySettled(d.view, Pending(d.log), Pending(d1.log), d.journaled, d.ledger, l, v);
    EntrySettled(d.view, Pending(d.log), After(Pending(d1.log), CheckpointsDir), d.journaled, d.ledger, l, v);
  }

  // -------------------------------------------------------------------- runs

  lemma RunWriteFrame(a: Fs, b: Fs, r: RunId, l: Loc, v: Val)
    requires Only(InRun(r), a, b) && OfRun(l, r)
    ensures Only(InRun(r), a, b[l := v])
    ensures RunUnnamed(b, r) ==> RunUnnamed(b[l := v], r)
  {
  }

  lemma GenWriteFrame(a: Fs, b: Fs, g: GenerationId, l: Loc, v: Val)
    requires Only(InGen(g), a, b) && OfGen(l, g)
    ensures Only(InGen(g), a, b[l := v])
    ensures Unnamed(b, g) ==> Unnamed(b[l := v], g)
  {
    if Unnamed(b, g) {
      var b' := b[l := v];
      assert RecordOf(b') == RecordOf(b);
      forall c ensures RefOf(b', c) == RefOf(b, c) {}
    }
  }

  ghost predicate RunChildIs(fs: Fs, r: RunId, n: Name, files: Files) {
    if n in files then
      Get(fs, RunName(r, n)) == Present && Get(fs, RunFile(r, n)) == FileVal(files[n])
    else
      Get(fs, RunName(r, n)) == Absent
  }

  ghost predicate RunChildrenAre(fs: Fs, r: RunId, files: Files) {
    forall n :: RunChildIs(fs, r, n, files)
  }

  /** `r` is being prepared: its directory is there and no record names it. */
  ghost predicate Preparing(d: Disk, r: RunId) {
    && r < d.ledger.nextRun && r !in d.ledger.prepared
    && Get(d.view, RunDir(r)) == DirVal(InPlace)
    && forall n :: Get(d.view, RunName(r, n)) == Absent ==> Get(d.view, RunFile(r, n)) == Absent
  }

  lemma PreparingKept(a: Disk, b: Disk, r: RunId)
    requires Preparing(a, r) && b.view == a.view && b.ledger == a.ledger
    ensures Preparing(b, r)
  {
  }

  lemma RunWriteIsGood(d: Disk, r: RunId, l: Loc, v: Val)
    requires Valid(d) && r < d.ledger.nextRun && OfRun(l, r)
    requires r !in d.ledger.prepared || (IsMeta(l) && RunUnnamed(d.view, r))
    ensures WriteIsGood(d, l, v, d.ledger)
  {
    hide Good, Extends, Settled, InPlaceComplete, CrashSafe;
    forall fs | Good(fs, d.ledger, d.journaled) && Extends(fs, d.view, Pending(d.log), d.journaled, l)
      ensures Good(fs[l := v], d.ledger, d.journaled)
    {
      if r in d.ledger.prepared {
        SettledShows(fs, d.view, Pending(d.log), d.ledger, d.journaled, l);
      } else {
        UnpreparedIsUnnamed(fs, d.ledger, d.journaled, r);
      }
      UnnamedRunWrite(fs, d.ledger, d.journaled, r, l, v);
    }
  }

  lemma UnpreparedIsUnnamed(fs: Fs, a: Ledger, journaled: bool, r: RunId)
    requires Good(fs, a, journaled) && r !in a.prepared
    ensures RunUnnamed(fs, r)
  {
  }

  lemma RunWriteIsValid(d: Disk, r: RunId, l: Loc, v: Val)
    requires Valid(d) && r < d.ledger.nextRun && OfRun(l, r)
    requires r !in d.ledger.prepared || (IsMeta(l) && RunUnnamed(d.view, r))
    requires l.RunFile? ==> DiskImage(Get(d.view, l)) == []
    ensures Valid(Written(d, l, v, d.ledger)) && Later(d, Written(d, l, v, d.ledger))
    ensures Pending(Written(d, l, v, d.ledger).log) == Pending(d.log) + {l}
  {
    hide Good, Settled, InPlaceComplete, CrashSafe, WriteIsGood, LedgerOk, Grows, Pending, View;
    RunWriteIsGood(d, r, l, v);
    GrowsSelf(d.ledger);
    WrittenIsSafe(d, l, v, d.ledger);
    OtherWriteSettled(d.view, Pending(d.log), d.journaled, d.ledger, l, v);
  }

  lemma RunStartSteps(d: Disk)
    requires Valid(d)
    ensures var r := d.ledger.nextRun;
            var d1 := Noted(d, NextRun(d.ledger));
            var d2 := Written(d1, RunDir(r), DirVal(InPlace), d1.ledger);
            && Valid(d1) && Later(d, d1) && Valid(d2) && Later(d, d2)
            && Preparing(d2, r) && RunChildrenAre(d2.view, r, map[]) && Only(InRun(r), d.view, d2.view)
  {
    hide Good, Settled, InPlaceComplete, CrashSafe, WriteIsGood, LedgerOk, Grows, Pending, View;
    var r := d.ledger.nextRun;
    NextIsFresh(d);
    NextGrows(d.ledger);
    var d1 := Noted(d, NextRun(d.ledger));
    NotedIsValid(d, d1.ledger);
    RunWriteIsValid(d1, r, RunDir(r), DirVal(InPlace));
  }

  function RunChildDisk(d: Disk, r: RunId, n: Name, c: Content): Disk {
    var d1 := Written(d, RunName(r, n), Present, d.ledger);
    Written(d1, RunFile(r, n), FileVal(c), d.ledger)
  }

  lemma RunChildSteps(d: Disk, r: RunId, n: Name, c: Content, files: Files)
    requires Valid(d) && Preparing(d, r) && RunChildrenAre(d.view, r, files) && n !in files
    ensures var d1 := Written(d, RunName(r, n), Present, d.ledger);
            Valid(d1) && Later(d, d1) && Only(InRun(r), d.view, d1.view)
    ensures var d2 := RunChildDisk(d, r, n, c);
            && Valid(d2) && Later(d, d2) && Only(InRun(r), d.view, d2.view) && Preparing(d2, r)
            && RunChildrenAre(d2.view, r, files[n := c])
  {
    hide Good, Settled, InPlaceComplete, CrashSafe, WriteIsGood, LedgerOk, Grows, Pending, View;
    var d1 := Written(d, RunName(r, n), Present, d.ledger);
    assert RunChildIs(d.view, r, n, files);
    RunWriteIsValid(d, r, RunName(r, n), Present);
    RunWriteIsValid(d1, r, RunFile(r, n), FileVal(c));
    var d2 := RunChildDisk(d, r, n, c);
    var files' := files[n := c];
    forall m ensures RunChildIs(d2.view, r, m, files') {
      assert RunChildIs(d.view, r, m, files);
    }
  }

  /** A synced run directory may be named by the record. */
  lemma RunReadySteps(d: Disk, r: RunId, files: Files)
    requires Valid(d) && Preparing(d, r) && RunChildrenAre(d.view, r, files)
    requires RunTreeSynced(Pending(d.log), r, files.Keys)
    ensures var d1 := Noted(d, WithRun(d.ledger, r, files.Keys));
            && Valid(d1) && Later(d, d1)
            && RunComplete(d1.view, d1.ledger, r) && RunSettled(Pending(d1.log), d1.journaled, d1.ledger, r)
  {
    hide Good, Settled, InPlaceComplete, CrashSafe, Pending, View, WellFormed;
    var d1 := Noted(d, WithRun(d.ledger, r, files.Keys));
    NotedIsValid(d, d1.ledger);
    forall n | n in files.Keys ensures RunChild(d1.view, r, n) {
      assert RunChildIs(d.view, r, n, files);
    }
  }

  /** The VM writing its disk in place. */
  lemma GuestWriteIsValid(d: Disk, r: RunId, n: Name, c: Content)
    requires Valid(d) && r < d.ledger.nextRun
    requires DiskImage(Get(d.view, RunFile(r, n))) <= DiskImage(FileVal(c))
    ensures var d1 := Written(d, RunFile(r, n), FileVal(c), d.ledger);
            Valid(d1) && Later(d, d1)
  {
    var l, v := RunFile(r, n), FileVal(c);
    hide Good, Extends, Settled, InPlaceComplete, CrashSafe;
    forall fs | Good(fs, d.ledger, d.journaled) ensures Good(fs[l := v], d.ledger, d.journaled) {
      GuestWrite(fs, d.ledger, d.journaled, r, n, c);
    }
    GrowsSelf(d.ledger);
    WrittenIsSafe(d, l, v, d.ledger);
    OtherWriteSettled(d.view, Pending(d.log), d.journaled, d.ledger, l, v);
  }

  // ------------------------------------------------------------------- garbage

  lemma CollectWriteIsValid(d: Disk, g: GenerationId, l: Loc, v: Val)
    requires Valid(d) && OfGen(l, g) && IsMeta(l) && g < d.ledger.nextGen && Unnamed(d.view, g)
    requires l.GenDir? ==> v != DirVal(InPlace)
    requires l.GenName? ==> !IsInPlace(d.view, g)
    ensures Valid(Written(d, l, v, d.ledger)) && Later(d, Written(d, l, v, d.ledger))
  {
    hide Good, Extends, Settled, InPlaceComplete, CrashSafe;
    forall fs | Good(fs, d.ledger, d.journaled) && Extends(fs, d.view, Pending(d.log), d.journaled, l)
      ensures Good(fs[l := v], d.ledger, d.journaled)
    {
      CollectWrite(fs, d.view, Pending(d.log), d.ledger, d.journaled, g, l, v);
    }
    GrowsSelf(d.ledger);
    WrittenIsSafe(d, l, v, d.ledger);
    GenWriteSettled(d.view, Pending(d.log), d.journaled, d.ledger, g, l, v);
  }

  // ------------------------------------------------------- publishing the directory

  /** The directory has not been given its name among the instances. */
  ghost predicate NeverHome(d: Disk) {
    Get(d.base, HomeEntry) == Absent && forall i: nat :: IsPut(d.log, i) ==> d.log[i].loc != HomeEntry
  }

  lemma StillNotHome(d: Disk, l: Loc, v: Val, next: Ledger, o: Obj)
    requires NeverHome(d)
    ensures l != HomeEntry ==> NeverHome(Written(d, l, v, next))
    ensures NeverHome(SyncedOn(d, o)) && NeverHome(Noted(d, next))
  {
    forall i: nat | IsPut(d.log, i) ensures d.log[i].loc != HomeEntry {}
  }

  lemma HomeWriteIsValid(d: Disk, v: Val)
    requires Valid(d)
    ensures var d1 := Written(d, HomeEntry, v, d.ledger); Valid(d1) && Later(d, d1)
  {
    hide Good, Extends, Settled, InPlaceComplete, CrashSafe;
    forall fs | Good(fs, d.ledger, d.journaled) ensures Good(fs[HomeEntry := v], d.ledger, d.journaled) {
      HomeWrite(fs, d.ledger, d.journaled, v);
    }
    GrowsSelf(d.ledger);
    WrittenIsSafe(d, HomeEntry, v, d.ledger);
    OtherWriteSettled(d.view, Pending(d.log), d.journaled, d.ledger, HomeEntry, v);
  }

  // ---------------------------------------------------------------- power loss

  function Rebooted(d: Disk, survivor: Fs): Disk {
    Disk(d.journaled, survivor, survivor, [], d.ledger)
  }

  lemma GoodIsInPlaceComplete(fs: Fs, a: Ledger, journaled: bool)
    requires Good(fs, a, journaled)
    ensures journaled ==> InPlaceComplete(fs, a)
  {
  }

  /** Whatever a power loss leaves is a crash-safe store again; on a journaled
      file system it is ready for the next operation. */
  lemma RebootIsSafe(d: Disk, survivor: Fs)
    requires CrashSafe(d) && CrashState(d.base, d.log, d.journaled, survivor)
    ensures CrashSafe(Rebooted(d, survivor))
    ensures d.journaled || InPlaceComplete(survivor, d.ledger) ==> Valid(Rebooted(d, survivor))
  {
    hide Good;
    var d' := Rebooted(d, survivor);
    GoodIsInPlaceComplete(survivor, d.ledger, d.journaled);
    assert Good(survivor, d.ledger, d.journaled);
    forall fs | CrashState(d'.base, d'.log, d'.journaled, fs) ensures Good(fs, d'.ledger, d'.journaled) {
      var keep: set<nat> :| Allowed(d'.log, keep, d'.journaled) && fs == Survive(d'.base, d'.log, keep);
    }
  }
}
