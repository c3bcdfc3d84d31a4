/**
  Building on an operation that was cut off between a rename or an unlink and the sync
  of its directory. Barriers between a file and its own directory do not make that safe:
  the next operation may rely on an entry that a power loss takes back. It is safe, each
  time, if and only if the file system keeps directory updates in order.
 */
module CutOff {
  import opened Layout
  import opened Journal
  import opened StoreModel
  import opened StoreWrites
  import opened Disks
  import opened RunDisks
  import opened Instances
  import opened CrashTheorems

  /** Without a journal, a crash may lose any one write that no sync covers and show
      everything else. */
  lemma LoseOne(base: Fs, log: seq<Entry>, i: nat) returns (fs: Fs)
    requires IsPut(log, i) && !Synced(log, i)
    requires forall j: nat :: i < j && IsPut(log, j) ==> log[j].loc != log[i].loc
    ensures CrashState(base, log, false, fs)
    ensures Get(fs, log[i].loc) == Get(View(base, log[..i]), log[i].loc)
    ensures forall l :: l != log[i].loc ==> Get(fs, l) == Get(View(base, log), l)
  {
    var n := |log|;
    var keep := set j: nat | j < n && Below(j, n) && j != i;
    forall j: nat, b: nat, k: nat | Covers(log, j, b) && b < k && IsPut(log, k) && k in keep ensures j in keep {}
    assert Allowed(log, keep, false);
    fs := Survive(base, log, keep);
    JustBefore(base, log, keep, log[i].loc, i);
    forall l | l != log[i].loc ensures Get(fs, l) == Get(View(base, log), l) { AgreesAt(base, log, keep, l); }
  }

  /** `l` was written after `d`, then other things in `tail`, and nothing synced it: a
      crash may show it as it was in `d` and all the rest as it is now. */
  lemma LoseEntry(d: Disk, l: Loc, v: Val, tail: seq<Entry>, b: Disk) returns (fs: Fs)
    requires CrashSafe(d) && !b.journaled && b.base == d.base && b.log == d.log + [Put(l, v)] + tail
    requires b.view == View(b.base, b.log)
    requires forall e :: e in tail ==> e != Sync(ObjOf(l)) && (e.Put? ==> e.loc != l)
    ensures CrashState(b.base, b.log, b.journaled, fs)
    ensures Get(fs, l) == Get(d.view, l) && forall m :: m != l ==> Get(fs, m) == Get(b.view, m)
  {
    hide Safe, LedgerOk, ImagesGrow, View, CrashState;
    var n := |d.log|;
    assert b.log[n] == Put(l, v) && b.log[..n] == d.log;
    forall j: nat | n < j < |b.log| ensures b.log[j] in tail { assert b.log[j] == tail[j - n - 1]; }
    fs := LoseOne(b.base, b.log, n);
  }

  lemma UnsafeIf(b: Disk, fs: Fs)
    requires CrashState(b.base, b.log, b.journaled, fs) && !Good(fs, b.ledger, b.journaled)
    ensures !CrashSafe(b)
  {
    hide Good, CrashState;
  }

  // --------------------------------------------------------------- a record commit

  /** A record commit cut off after its rename. */
  function CutCommit(d: Disk, rec: Record): Disk {
    var t := d.ledger.nextInode;
    var synced := SyncedOn(RecordTempDisk(d, rec), RecordTemp(t));
    Written(synced, RecordEntry, Link(t), synced.ledger)
  }

  lemma CutCommitIsValid(d: Disk, rec: Record)
    requires Valid(d) && d.journaled && MayCommit(d, rec)
    ensures var cut := CutCommit(d, rec);
            && Valid(cut) && Later(d, cut) && RecordOf(cut.view) == Some(rec) && SameRefs(d.view, cut.view)
  {
    hide Valid, CrashSafe, MayCommit, Only, Pending, RefOf, SameRefs, SameFinals, FewerFinals, OtherRefsSame, Grows;
    var t := d.ledger.nextInode;
    RecordTempSteps(d, rec);
    var synced := SyncedOn(RecordTempDisk(d, rec), RecordTemp(t));
    MayCommitKept(d, synced, rec);
    RecordRenameSteps(synced, t);
    var cut := CutCommit(d, rec);
    Then(d, synced, cut);
    OnlyKeeps(InRecord, d.view, cut.view);
  }

  /** Removing something after a cut-off commit: without a journal a crash may show the
      old record with it gone. */
  lemma CutCommitForgets(d: Disk, rec: Record, l: Loc, v: Val) returns (fs: Fs)
    requires Valid(d) && !d.journaled && l != RecordEntry
    ensures var b := Written(CutCommit(d, rec), l, v, CutCommit(d, rec).ledger);
            && CrashState(b.base, b.log, b.journaled, fs) && Grows(d.ledger, b.ledger)
            && Get(fs, RecordEntry) == Get(d.view, RecordEntry) && Get(fs, l) == v
  {
    hide Valid, CrashState, Good, View, Grows, Settled;
    var t := d.ledger.nextInode;
    RecordTempSteps(d, rec);
    var synced := SyncedOn(RecordTempDisk(d, rec), RecordTemp(t));
    var cut := CutCommit(d, rec);
    var b := Written(cut, l, v, cut.ledger);
    WrittenLog(synced, RecordEntry, Link(t), synced.ledger);
    WrittenLog(cut, l, v, cut.ledger);
    assert b.log == synced.log + [Put(RecordEntry, Link(t))] + [Put(l, v)];
    fs := LoseEntry(synced, RecordEntry, Link(t), [Put(l, v)], b);
  }

  /** The collector then removes the generation that the old record, which may be the
      one to survive, still names. */
  lemma CollectingAfterCutCommit(d: Disk, rec: Record, g: GenerationId)
    requires Valid(d) && MayCommit(d, rec) && RecordOf(d.view).Some? && RecordOf(d.view).value.latest == Some(g)
    requires rec.latest != Some(g) && forall c :: RefOf(d.view, c).Some? ==> RefOf(d.view, c).value.generation != g
    ensures var cut := CutCommit(d, rec);
            CrashSafe(Written(cut, GenDir(g), DirVal(Trash), cut.ledger)) <==> d.journaled
  {
    hide Valid, CrashSafe, MayCommit, Pending, RefOf, Later;
    if d.journaled {
      CutCommitIsValid(d, rec);
      LatestIsOld(d, g);
      assert Unnamed(CutCommit(d, rec).view, g);
      CollectWriteIsValid(CutCommit(d, rec), g, GenDir(g), DirVal(Trash));
    } else {
      CutCommitLosesLatest(d, rec, g);
    }
  }

  lemma CutCommitLosesLatest(d: Disk, rec: Record, g: GenerationId)
    requires Valid(d) && !d.journaled
    requires RecordOf(d.view).Some? && RecordOf(d.view).value.latest == Some(g)
    ensures var cut := CutCommit(d, rec);
            !CrashSafe(Written(cut, GenDir(g), DirVal(Trash), cut.ledger))
  {
    hide Valid, CrashSafe, CrashState, Good, View;
    var cut := CutCommit(d, rec);
    var b := Written(cut, GenDir(g), DirVal(Trash), cut.ledger);
    var fs := CutCommitForgets(d, rec, GenDir(g), DirVal(Trash));
    OldRecordNames(d, fs, b.ledger, false);
    UnsafeIf(b, fs);
  }

  /** A state with the old record lacks what that record names. */
  lemma OldRecordNames(d: Disk, fs: Fs, ledger: Ledger, journaled: bool)
    requires CrashSafe(d) && RecordOf(d.view).Some? && Get(fs, RecordEntry) == Get(d.view, RecordEntry)
    requires Grows(d.ledger, ledger)
    ensures Good(fs, ledger, journaled) ==>
              && (RecordOf(d.view).value.latest.Some? ==> IsInPlace(fs, RecordOf(d.view).value.latest.value))
              && (RecordOf(d.view).value.phase.Run().Some? ==>
                    Get(fs, RunDir(RecordOf(d.view).value.phase.Run().value)) == DirVal(InPlace))
  {
    ViewIsGood(d);
    var e := Get(d.view, RecordEntry);
    assert ledger.records[e.inode] == d.ledger.records[e.inode];
  }

  /** Or it removes the directory of the run that the old record still names. */
  lemma RemovingRunAfterCutCommit(d: Disk, rec: Record, r: RunId)
    requires Valid(d) && MayCommit(d, rec) && RecordOf(d.view).Some? && RecordOf(d.view).value.phase.Run() == Some(r)
    requires rec.phase.Run() != Some(r)
    ensures var cut := CutCommit(d, rec);
            CrashSafe(Written(cut, RunDir(r), Absent, cut.ledger)) <==> d.journaled
  {
    hide Valid, CrashSafe, CrashState, Good, View, MayCommit, Pending, RefOf, RecordOf, Later;
    var cut := CutCommit(d, rec);
    if d.journaled {
      CutCommitIsValid(d, rec);
      RunIsStarted(d, r);
      assert RunUnnamed(cut.view, r);
      RunWriteIsValid(cut, r, RunDir(r), Absent);
    } else {
      var b := Written(cut, RunDir(r), Absent, cut.ledger);
      var fs := CutCommitForgets(d, rec, RunDir(r), Absent);
      OldRecordNames(d, fs, b.ledger, false);
      UnsafeIf(b, fs);
    }
  }

  // -------------------------------------------------------------------- a publish

  /** A publish cut off after its rename: `g` is in place, with no sync of `generations`. */
  function CutPublish(d: Disk, g: GenerationId, files: Files): Disk {
    Written(d, GenDir(g), DirVal(InPlace), WithGeneration(d.ledger, g, files))
  }

  ghost predicate MayPublish(d: Disk, g: GenerationId, files: Files) {
    && Valid(d) && Staged(d, g) && ChildrenAre(d.view, g, files) && WellFormed(g, files) && Started(files, d.ledger.nextRun)
    && TreeSynced(Pending(d.log), g, files.Keys)
  }

  /** Recovery rolls forward and commits a record naming it. Even once that commit is
      synced, the record may survive while the directory is still staging. */
  lemma CommittingAfterCutPublish(d: Disk, g: GenerationId, files: Files)
    requires MayPublish(d, g, files)
    ensures var committed := SyncedOn(CutCommit(CutPublish(d, g, files), Record(Some(g), Stopped)), InstanceDir);
            CrashSafe(committed) <==> d.journaled
  {
    hide Valid, CrashSafe, CrashState, Good, View, Pending, ChildrenAre, WellFormed, Started, TreeSynced, MayCommit, RefOf, Only,
         Grows;
    var cut := CutPublish(d, g, files);
    var rec := Record(Some(g), Stopped);
    var b := SyncedOn(CutCommit(cut, rec), InstanceDir);
    PublishSteps(d, g, files);
    if d.journaled {
      assert MayCommit(cut, rec) by { RolledForward(cut, g); }
      CutCommitIsValid(cut, rec);
      SyncedIsValid(CutCommit(cut, rec), InstanceDir);
    } else {
      var t := cut.ledger.nextInode;
      var tail := [Put(RecordFile(t), RecordVal(rec)), Sync(RecordTemp(t)), Put(RecordEntry, Link(t)), Sync(InstanceDir)];
      CommitLog(cut, rec);
      assert b.log == d.log + [Put(GenDir(g), DirVal(InPlace))] + tail;
      var fs := LoseEntry(d, GenDir(g), DirVal(InPlace), tail, b);
      NamesStaging(fs, b.ledger, t, rec, g);
      UnsafeIf(b, fs);
    }
  }

  lemma RolledForward(d: Disk, g: GenerationId)
    requires IsInPlace(d.view, g)
    ensures MayCommit(d, Record(Some(g), Stopped))
  {
  }

  lemma CommitLog(d: Disk, rec: Record)
    requires CrashSafe(d)
    ensures var b := SyncedOn(CutCommit(d, rec), InstanceDir);
            var t := d.ledger.nextInode;
            && b.log == d.log + [Put(RecordFile(t), RecordVal(rec)), Sync(RecordTemp(t)), Put(RecordEntry, Link(t)), Sync(InstanceDir)]
            && b.view == View(b.base, b.log) && b.view == d.view[RecordFile(t) := RecordVal(rec)][RecordEntry := Link(t)]
  {
    hide Safe, LedgerOk, ImagesGrow, View, Pending;
    var t := d.ledger.nextInode;
    var temp := RecordTempDisk(d, rec);
    var synced := SyncedOn(temp, RecordTemp(t));
    WrittenLog(d, RecordFile(t), RecordVal(rec), WithRecord(d.ledger, rec));
    SyncedLog(temp, RecordTemp(t));
    WrittenLog(synced, RecordEntry, Link(t), synced.ledger);
    SyncedLog(CutCommit(d, rec), InstanceDir);
  }

  lemma NamesStaging(fs: Fs, ledger: Ledger, t: Inode, rec: Record, g: GenerationId)
    requires Get(fs, RecordEntry) == Link(t) && t in ledger.records && ledger.records[t] == rec && rec.latest == Some(g)
    requires !IsInPlace(fs, g)
    ensures forall journaled :: !Good(fs, ledger, journaled)
  {
  }

  /** Or a checkpoint is made of it: the reference may survive and name a staging directory. */
  lemma NamingAfterCutPublish(d: Disk, g: GenerationId, files: Files, ref: CheckpointRef)
    requires MayPublish(d, g, files) && ref.generation == g
    ensures CrashSafe(SyncedOn(Linked(CutPublish(d, g, files), ref), CheckpointsDir)) <==> d.journaled
  {
    hide Valid, CrashSafe, CrashState, Good, View, Pending, ChildrenAre, WellFormed, Started, TreeSynced, RefOf, Only, Grows,
         OtherRefsSame;
    var cut := CutPublish(d, g, files);
    var b := SyncedOn(Linked(cut, ref), CheckpointsDir);
    var t := cut.ledger.nextInode;
    PublishSteps(d, g, files);
    if d.journaled {
      RefTempSteps(cut, ref);
      var synced := SyncedOn(RefTempDisk(cut, ref), RefTemp(t));
      OnlyKeeps(InRefs, cut.view, synced.view);
      RefEntrySteps(synced, ref.id, Link(t));
    } else {
      var tail := [Put(RefFile(t), RefVal(ref)), Sync(RefTemp(t)), Put(RefEntry(ref.id), Link(t)), Sync(CheckpointsDir)];
      LinkLog(cut, ref);
      assert b.log == d.log + [Put(GenDir(g), DirVal(InPlace))] + tail;
      var fs := LoseEntry(d, GenDir(g), DirVal(InPlace), tail, b);
      RefNamesGone(fs, b.ledger, ref.id, t, g);
      UnsafeIf(b, fs);
    }
  }

  /** A reference committed up to its rename. */
  function Linked(d: Disk, ref: CheckpointRef): Disk {
    var t := d.ledger.nextInode;
    var synced := SyncedOn(RefTempDisk(d, ref), RefTemp(t));
    Written(synced, RefEntry(ref.id), Link(t), synced.ledger)
  }

  lemma LinkLog(d: Disk, ref: CheckpointRef)
    requires CrashSafe(d)
    ensures var b := SyncedOn(Linked(d, ref), CheckpointsDir);
            var t := d.ledger.nextInode;
            && b.log == d.log + [Put(RefFile(t), RefVal(ref)), Sync(RefTemp(t)), Put(RefEntry(ref.id), Link(t)), Sync(CheckpointsDir)]
            && b.view == View(b.base, b.log) && b.view == d.view[RefFile(t) := RefVal(ref)][RefEntry(ref.id) := Link(t)]
  {
    hide Safe, LedgerOk, ImagesGrow, View, Pending;
    var t := d.ledger.nextInode;
    var temp := RefTempDisk(d, ref);
    var synced := SyncedOn(temp, RefTemp(t));
    WrittenLog(d, RefFile(t), RefVal(ref), WithRef(d.ledger, ref));
    SyncedLog(temp, RefTemp(t));
    WrittenLog(synced, RefEntry(ref.id), Link(t), synced.ledger);
    SyncedLog(Linked(d, ref), CheckpointsDir);
  }

  lemma RefNamesGone(fs: Fs, ledger: Ledger, c: CheckpointId, t: Inode, g: GenerationId)
    requires Get(fs, RefEntry(c)) == Link(t) && t in ledger.refs && ledger.refs[t].generation == g && !IsInPlace(fs, g)
    ensures forall journaled :: !Good(fs, ledger, journaled)
  {
    assert !RefGood(fs, ledger, c);
  }

  // ------------------------------------------------------------- a checkpoint unlink

  /** A checkpoint deleted up to its unlink, with no sync of `checkpoints`. */
  function CutUnlink(d: Disk, c: CheckpointId): Disk {
    Written(d, RefEntry(c), Absent, d.ledger)
  }

  /** The collector then removes the generation it named, which nothing else names: the
      reference may survive and name trash. */
  lemma CollectingAfterCutUnlink(d: Disk, c: CheckpointId, g: GenerationId)
    requires Valid(d) && RefOf(d.view, c).Some? && RefOf(d.view, c).value.generation == g
    requires RecordOf(d.view).Some? ==> RecordOf(d.view).value.latest != Some(g)
    requires forall e :: e != c && RefOf(d.view, e).Some? ==> RefOf(d.view, e).value.generation != g
    ensures var cut := CutUnlink(d, c);
            CrashSafe(Written(cut, GenDir(g), DirVal(Trash), cut.ledger)) <==> d.journaled
  {
    hide Valid, CrashSafe, CrashState, Good, View, Pending, RefOf, RecordOf, Grows, Later, Only;
    var cut := CutUnlink(d, c);
    var b := Written(cut, GenDir(g), DirVal(Trash), cut.ledger);
    RefIsLinked(d, c);
    if d.journaled {
      RefEntrySteps(d, c, Absent);
      OnlyKeeps(InRefs, d.view, cut.view);
      assert Unnamed(cut.view, g) by { Unlinked(d.view, cut.view, c); }
      CollectWriteIsValid(cut, g, GenDir(g), DirVal(Trash));
    } else {
      var tail := [Put(GenDir(g), DirVal(Trash))];
      ViewsOf(d, c, g);
      assert b.log == d.log + [Put(RefEntry(c), Absent)] + tail;
      var fs := LoseEntry(d, RefEntry(c), Absent, tail, b);
      RefNamesGone(fs, b.ledger, c, Get(d.view, RefEntry(c)).inode, g);
      UnsafeIf(b, fs);
    }
  }

  lemma ViewsOf(d: Disk, c: CheckpointId, g: GenerationId)
    requires CrashSafe(d)
    ensures var b := Written(CutUnlink(d, c), GenDir(g), DirVal(Trash), d.ledger); b.view == View(b.base, b.log)
  {
    hide Safe, LedgerOk, ImagesGrow, View, Pending;
    WrittenLog(d, RefEntry(c), Absent, d.ledger);
    WrittenLog(CutUnlink(d, c), GenDir(g), DirVal(Trash), d.ledger);
  }

  lemma Unlinked(a: Fs, b: Fs, c: CheckpointId)
    requires OtherRefsSame(a, b, c) && RefOf(b, c).None?
    ensures forall e :: RefOf(b, e).Some? ==> e != c && RefOf(a, e) == RefOf(b, e)
  {
  }

  lemma RefIsLinked(d: Disk, c: CheckpointId)
    requires CrashSafe(d) && RefOf(d.view, c).Some?
    ensures var e := Get(d.view, RefEntry(c));
            && e.Link? && e.inode in d.ledger.refs && d.ledger.refs[e.inode] == RefOf(d.view, c).value
            && RefOf(d.view, c).value.generation < d.ledger.nextGen
  {
    ViewIsGood(d);
    assert RefGood(d.view, d.ledger, c);
  }
}
