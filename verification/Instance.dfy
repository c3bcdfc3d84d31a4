/**
  The abstract machine: what an instance is to its user. It knows nothing of
  generations, directories or syncs.
 */
module Instances {
  import opened Layout
  import opened Journal
  import opened StoreModel
  import opened StoreWrites
  import opened Disks
  import opened RunDisks

  /** A VM run: `dirty` once it has served a command. */
  datatype OpenRun = OpenRun(run: RunId, dirty: bool, files: Files)

  datatype SavedState = SavedState(name: Option<string>, files: Files)

  datatype Instance = Instance(
    current: Option<Files>,
    checkpoints: map<CheckpointId, SavedState>,
    open: Option<OpenRun>)

  /** The files of a generation that a run or a copy of it receives
      (src/store.rs:609-617, 863-869). */
  function Payload(files: Files): Files {
    map n | n in files && n != MANIFEST && n != PIN && (files[n].Data? || n == HOST_SHARE_STATE) :: files[n]
  }

  /** The disk without the memory (src/store.rs:818-822, 908-912). */
  function DiskOnly(files: Files): Files {
    map n | n in files && (n == ROOTFS || n == HOST_SHARE_STATE) :: files[n]
  }

  function PublishedPayload(a: Ledger, g: GenerationId): Files {
    if g in a.published then Payload(a.published[g]) else map[]
  }

  function RunFiles(d: Disk, r: RunId): Files {
    if r in d.ledger.prepared then
      map n | n in d.ledger.prepared[r] && Get(d.view, RunFile(r, n)).FileVal? :: Get(d.view, RunFile(r, n)).content
    else map[]
  }

  function RefIds(fs: Fs): set<CheckpointId> {
    set l | l in fs.Keys && l.RefEntry? && RefOf(fs, l.id).Some? :: l.id
  }

  function Checkpoints(d: Disk): map<CheckpointId, SavedState> {
    map c | c in RefIds(d.view) && RefOf(d.view, c).Some? ::
      SavedState(RefOf(d.view, c).value.name, PublishedPayload(d.ledger, RefOf(d.view, c).value.generation))
  }

  function Open(d: Disk, phase: Phase): Option<OpenRun> {
    match phase
    case Stopped => None
    case Running(r) => Some(OpenRun(r, false, RunFiles(d, r)))
    case Dirty(r) => Some(OpenRun(r, true, RunFiles(d, r)))
  }

  function Current(a: Ledger, latest: Option<GenerationId>): Option<Files> {
    if latest.Some? then Some(PublishedPayload(a, latest.value)) else None
  }

  /** The instance a disk stands for. */
  function Abs(d: Disk): Instance
    requires RecordOf(d.view).Some?
  {
    var rec := RecordOf(d.view).value;
    Instance(Current(d.ledger, rec.latest), Checkpoints(d), Open(d, rec.phase))
  }

  lemma RefIdsAre(fs: Fs)
    ensures forall c :: c in RefIds(fs) <==> RefOf(fs, c).Some?
  {
    forall c | RefOf(fs, c).Some? ensures c in RefIds(fs) { assert RefEntry(c) in fs.Keys; }
  }

  ghost predicate SameRefs(a: Fs, b: Fs) {
    forall c :: RefOf(a, c) == RefOf(b, c)
  }

  ghost predicate SameRun(a: Fs, b: Fs, r: RunId) {
    forall n :: Get(a, RunFile(r, n)) == Get(b, RunFile(r, n))
  }

  /** Published contents do not change, so neither do the checkpoints that name them. */
  lemma CheckpointsKept(a: Disk, b: Disk)
    requires CrashSafe(a) && Grows(a.ledger, b.ledger) && SameRefs(a.view, b.view)
    ensures Checkpoints(a) == Checkpoints(b)
  {
    hide CrashSafe, RefOf;
    RefIdsAre(a.view);
    RefIdsAre(b.view);
    forall c | RefOf(a.view, c).Some? ensures RefOf(a.view, c).value.generation in a.ledger.published {
      RefIsPublished(a, c);
    }
  }

  lemma RefIsPublished(d: Disk, c: CheckpointId)
    requires CrashSafe(d) && RefOf(d.view, c).Some?
    ensures RefOf(d.view, c).value.generation in d.ledger.published
  {
    ViewIsGood(d);
    assert RefGood(d.view, d.ledger, c);
  }

  lemma OpenRunIsPrepared(d: Disk)
    requires CrashSafe(d) && RecordOf(d.view).Some?
    ensures var run := RecordOf(d.view).value.phase.Run();
            run.Some? ==> run.value in d.ledger.prepared && RunComplete(d.view, d.ledger, run.value)
  {
    ViewIsGood(d);
  }

  lemma RunIsStarted(d: Disk, run: RunId)
    requires CrashSafe(d)
    requires run in d.ledger.prepared || (RecordOf(d.view).Some? && RecordOf(d.view).value.phase.Run() == Some(run))
    ensures run < d.ledger.nextRun
  {
    if RecordOf(d.view).Some? { OpenRunIsPrepared(d); }
  }

  lemma CurrentKept(a: Disk, b: Disk)
    requires CrashSafe(a) && Grows(a.ledger, b.ledger) && RecordOf(a.view).Some?
    ensures var latest := RecordOf(a.view).value.latest;
            Current(a.ledger, latest) == Current(b.ledger, latest)
  {
    ViewIsGood(a);
  }

  lemma OpenKept(a: Disk, b: Disk)
    requires CrashSafe(a) && Grows(a.ledger, b.ledger) && RecordOf(a.view).Some?
    requires var run := RecordOf(a.view).value.phase.Run(); run.Some? ==> SameRun(a.view, b.view, run.value)
    ensures Open(a, RecordOf(a.view).value.phase) == Open(b, RecordOf(a.view).value.phase)
  {
    hide CrashSafe, RecordOf;
    OpenRunIsPrepared(a);
    var run := RecordOf(a.view).value.phase.Run();
    if run.Some? {
      var r := run.value;
      assert forall n :: Get(a.view, RunFile(r, n)) == Get(b.view, RunFile(r, n));
      assert RunFiles(a, r) == RunFiles(b, r);
    }
  }

  /** Operations that touch neither the record, the refs nor the open run do not
      change the instance. */
  lemma AbsKept(a: Disk, b: Disk)
    requires CrashSafe(a) && Grows(a.ledger, b.ledger) && RecordOf(a.view).Some?
    requires RecordOf(b.view) == RecordOf(a.view) && SameRefs(a.view, b.view)
    requires var run := RecordOf(a.view).value.phase.Run(); run.Some? ==> SameRun(a.view, b.view, run.value)
    ensures Abs(b) == Abs(a)
  {
    hide CrashSafe, SameRefs, SameRun, Grows, RecordOf, Checkpoints, Open, Current;
    CheckpointsKept(a, b);
    CurrentKept(a, b);
    OpenKept(a, b);
  }

  lemma OnlyKeeps(s: Scope, a: Fs, b: Fs)
    requires Only(s, a, b)
    ensures !s.InRecord? ==> RecordOf(a) == RecordOf(b) && Get(a, RecordEntry) == Get(b, RecordEntry)
    ensures !s.InRefs? ==> SameRefs(a, b)
    ensures forall r :: s != InRun(r) ==> SameRun(a, b, r)
    ensures forall r :: s != InRun(r) ==> Get(a, RunDir(r)) == Get(b, RunDir(r))
    ensures forall g :: s != InGen(g) ==> Get(a, GenDir(g)) == Get(b, GenDir(g))
  {
    forall l | !Within(l, s) ensures Get(a, l) == Get(b, l) {}
  }

  /** Publishing keeps exactly the staged files. */
  lemma PublishKeepsPayload(g: GenerationId, parent: Option<GenerationId>, origin: Origin, files: Files)
    ensures Payload(PublishedFiles(g, parent, origin, files)) == Payload(files)
  {
  }

  /** Copying only what a copy receives loses nothing more. */
  lemma PayloadIsIdempotent(files: Files)
    ensures Payload(Payload(files)) == Payload(files)
  {
  }

  /** The instance, if the directory holds one. */
  function State(d: Disk): Option<Instance> {
    if RecordOf(d.view).Some? then Some(Abs(d)) else None
  }

  lemma StateKept(a: Disk, b: Disk)
    requires CrashSafe(a) && Grows(a.ledger, b.ledger)
    requires RecordOf(b.view) == RecordOf(a.view) && SameRefs(a.view, b.view)
    requires RecordOf(a.view).Some? ==>
               var run := RecordOf(a.view).value.phase.Run(); run.Some? ==> SameRun(a.view, b.view, run.value)
    ensures State(b) == State(a)
  {
    hide CrashSafe, SameRefs, SameRun, Grows, RecordOf, Abs;
    if RecordOf(a.view).Some? { AbsKept(a, b); }
  }

  /** The record's phase is the open run, and whether it has served. */
  lemma PhaseOfState(d: Disk)
    ensures State(d).Some? <==> RecordOf(d.view).Some?
    ensures State(d).Some? ==> (State(d).value.open.None? <==> RecordOf(d.view).value.phase == Stopped)
    ensures State(d).Some? && State(d).value.open.Some? ==>
              RecordOf(d.view).value.phase.Run() == Some(State(d).value.open.value.run)
              && (State(d).value.open.value.dirty <==> RecordOf(d.view).value.phase.Dirty?)
  {
  }

  /** What a disk with this record would stand for. */
  function StateWith(d: Disk, rec: Record): Instance {
    Instance(Current(d.ledger, rec.latest), Checkpoints(d), Open(d, rec.phase))
  }

  lemma StateWithKept(a: Disk, b: Disk, rec: Record)
    requires CrashSafe(a) && Grows(a.ledger, b.ledger) && SameRefs(a.view, b.view)
    requires rec.latest.Some? ==> rec.latest.value in a.ledger.published
    requires rec.phase.Run().Some? ==>
               rec.phase.Run().value in a.ledger.prepared && SameRun(a.view, b.view, rec.phase.Run().value)
    ensures StateWith(a, rec) == StateWith(b, rec)
  {
    hide CrashSafe, SameRefs, Checkpoints, Payload;
    CheckpointsKept(a, b);
    if rec.phase.Run().Some? {
      var r := rec.phase.Run().value;
      assert forall n :: Get(a.view, RunFile(r, n)) == Get(b.view, RunFile(r, n));
      assert RunFiles(a, r) == RunFiles(b, r);
    }
  }

  lemma StateIs(d: Disk, rec: Record)
    requires RecordOf(d.view) == Some(rec)
    ensures State(d) == Some(StateWith(d, rec))
  {
  }

  lemma MayCommitIsKnown(d: Disk, rec: Record)
    requires Valid(d) && MayCommit(d, rec)
    ensures rec.latest.Some? ==> rec.latest.value in d.ledger.published
    ensures rec.phase.Run().Some? ==> rec.phase.Run().value in d.ledger.prepared
  {
    hide CrashSafe;
    if RecordOf(d.view).Some? { OpenRunIsPrepared(d); }
  }

  /** The instance once `rec` is the record. */
  lemma CommitState(a: Disk, b: Disk, rec: Record)
    requires Valid(a) && MayCommit(a, rec) && Later(a, b)
    requires Only(InRecord, a.view, b.view) && RecordOf(b.view) == Some(rec)
    ensures State(b) == Some(StateWith(a, rec))
  {
    hide Valid, CrashSafe, MayCommit, Grows, StateWith, State, Only;
    MayCommitIsKnown(a, rec);
    OnlyKeeps(InRecord, a.view, b.view);
    StateWithKept(a, b, rec);
    StateIs(b, rec);
  }

  lemma RecordKeptState(a: Disk, b: Disk)
    requires Valid(a) && Later(a, b)
    requires Only(InRecord, a.view, b.view) && RecordOf(b.view) == RecordOf(a.view)
    ensures State(b) == State(a)
  {
    hide Valid, CrashSafe, Grows, State, Only, SameRefs, SameRun;
    OnlyKeeps(InRecord, a.view, b.view);
    StateKept(a, b);
  }

  /** Why a published generation exists. */
  function OriginOf(a: Ledger, g: GenerationId): Origin {
    if g in a.published && MANIFEST in a.published[g] && a.published[g][MANIFEST].ManifestDoc?
    then a.published[g][MANIFEST].manifest.origin
    else Image
  }

  /** The manifest of `g` says what it was made from, and why. */
  ghost predicate RecordedAs(a: Ledger, g: GenerationId, parent: Option<GenerationId>, origin: Origin)
    ensures RecordedAs(a, g, parent, origin) ==> g in a.published
  {
    && g in a.published && MANIFEST in a.published[g] && a.published[g][MANIFEST].ManifestDoc?
    && var m := a.published[g][MANIFEST].manifest; m.id == g && m.parent == parent && m.origin == origin
  }

  /** `saved` has the disk and the share state of `from`, and nothing else. */
  ghost predicate IsDiskOf(saved: Files, from: Files) {
    && ROOTFS in saved && ROOTFS in from && saved[ROOTFS] == from[ROOTFS]
    && (HOST_SHARE_STATE in saved <==> HOST_SHARE_STATE in from)
    && (HOST_SHARE_STATE in saved ==> saved[HOST_SHARE_STATE] == from[HOST_SHARE_STATE])
    && saved.Keys <= {ROOTFS, HOST_SHARE_STATE}
  }

  lemma DiskOnlyIs(files: Files)
    ensures ROOTFS in files ==> IsDiskOf(DiskOnly(files), files)
  {
  }

  /** `copy` has every file the manifest in `files` lists and the share state, each with its
      content, and nothing else. */
  ghost predicate CopiesListed(copy: Files, files: Files) {
    && MANIFEST in files && files[MANIFEST].ManifestDoc?
    && (forall n :: n in files[MANIFEST].manifest.files ==> n in files && n in copy)
    && (HOST_SHARE_STATE in files ==> HOST_SHARE_STATE in copy)
    && (forall n :: n in copy ==> (n in files[MANIFEST].manifest.files || n == HOST_SHARE_STATE) && n in files && copy[n] == files[n])
  }

  lemma PayloadCopiesListed(g: GenerationId, files: Files)
    requires WellFormed(g, files)
    ensures CopiesListed(Payload(files), files)
  {
  }

  /** `g` is a published final snapshot of `run`. */
  predicate IsFinal(d: Disk, run: RunId, g: GenerationId) {
    IsInPlace(d.view, g) && OriginOf(d.ledger, g) == Snapshot(run)
  }

  /** Writing and publishing a new generation changes nothing the user sees. */
  lemma StagedState(a: Disk, b: Disk, g: GenerationId)
    requires CrashSafe(a) && Later(a, b) && Only(InGen(g), a.view, b.view)
    ensures State(b) == State(a) && RecordOf(b.view) == RecordOf(a.view) && SameRefs(a.view, b.view)
    ensures forall h :: h != g ==> IsInPlace(a.view, h) == IsInPlace(b.view, h)
  {
    hide CrashSafe, State, Only, SameRefs, SameRun, Grows;
    OnlyKeeps(InGen(g), a.view, b.view);
    StateKept(a, b);
  }

  /** No final snapshot appears. */
  ghost predicate FewerFinals(a: Disk, b: Disk) {
    forall q, h :: IsFinal(b, q, h) ==> IsFinal(a, q, h)
  }

  lemma CommitsKeepFinals(a: Disk, b: Disk)
    requires Only(InRecord, a.view, b.view) || Only(InRefs, a.view, b.view)
    requires a.ledger.published == b.ledger.published
    ensures SameFinals(a, b)
  {
    forall q, h ensures IsFinal(a, q, h) <==> IsFinal(b, q, h) {
      assert Get(a.view, GenDir(h)) == Get(b.view, GenDir(h));
    }
  }

  ghost predicate SameFinals(a: Disk, b: Disk)
    ensures SameFinals(a, b) ==> FewerFinals(a, b)
  {
    forall q, h :: IsFinal(a, q, h) <==> IsFinal(b, q, h)
  }

  /** Nothing happened. */
  lemma Unchanged(d: Disk)
    ensures Later(d, d) && SameRefs(d.view, d.view) && FewerFinals(d, d) && SameFinals(d, d)
    ensures forall s :: Only(s, d.view, d.view)
    ensures forall c :: OtherRefsSame(d.view, d.view, c)
  {
  }

  /** One thing happened, then another. */
  lemma Then(a: Disk, b: Disk, c: Disk)
    requires Later(a, b) && Later(b, c)
    ensures Later(a, c)
    ensures SameRefs(a.view, b.view) && SameRefs(b.view, c.view) ==> SameRefs(a.view, c.view)
    ensures FewerFinals(a, b) && FewerFinals(b, c) ==> FewerFinals(a, c)
    ensures SameFinals(a, b) && SameFinals(b, c) ==> SameFinals(a, c)
    ensures forall s :: Only(s, a.view, b.view) && Only(s, b.view, c.view) ==> Only(s, a.view, c.view)
    ensures forall e :: OtherRefsSame(a.view, b.view, e) && OtherRefsSame(b.view, c.view, e)
                        ==> OtherRefsSame(a.view, c.view, e)
  {
    hide IsFinal, RefOf, Get;
  }

  /** A new generation that is not a final snapshot leaves recovery's choice alone. */
  lemma FinalsKept(a: Disk, b: Disk, g: GenerationId)
    requires Later(a, b) && CrashSafe(a) && g !in a.ledger.published
    requires !IsInPlace(a.view, g)
    requires forall h :: h != g ==> IsInPlace(a.view, h) == IsInPlace(b.view, h)
    requires forall h :: h in b.ledger.published ==> h in a.ledger.published || h == g
    requires IsInPlace(b.view, g) ==> !OriginOf(b.ledger, g).Snapshot?
    ensures SameFinals(a, b)
  {
    hide CrashSafe;
  }

  // -------------------------------------------------------------- the runs' disks

  /** The guest writes on the disk of every run that has one. */
  function Images(fs: Fs): map<RunId, seq<nat>> {
    map l | l in fs.Keys && l.RunFile? && l.name == ROOTFS :: l.run := DiskImage(fs[l])
  }

  function ImageOn(fs: Fs, q: RunId): seq<nat> { DiskImage(Get(fs, RunFile(q, ROOTFS))) }

  lemma ImageIs(fs: Fs, q: RunId)
    ensures ImageOn(fs, q) == if q in Images(fs) then Images(fs)[q] else []
  {
    if q in Images(fs) { assert RunFile(q, ROOTFS) in fs.Keys; }
    if RunFile(q, ROOTFS) in fs.Keys { assert q in Images(fs); }
  }

  lemma WriteKeepsImages(fs: Fs, l: Loc, v: Val)
    ensures !(l.RunFile? && l.name == ROOTFS) ==> Images(fs[l := v]) == Images(fs)
    ensures l.RunFile? ==> Images(fs[l := v]) - {l.run} == Images(fs) - {l.run}
  {
    var fs' := fs[l := v];
    forall q | l.RunFile? && l.name == ROOTFS ==> q != l.run
      ensures q in Images(fs') <==> q in Images(fs)
      ensures q in Images(fs) ==> Images(fs')[q] == Images(fs)[q]
    {
      assert RunFile(q, ROOTFS) in fs'.Keys <==> RunFile(q, ROOTFS) in fs.Keys;
      assert q in Images(fs) <==> RunFile(q, ROOTFS) in fs.Keys;
      assert q in Images(fs') <==> RunFile(q, ROOTFS) in fs'.Keys;
    }
  }

  /** The runs any record has named, each with the saved state named beside it. */
  function RunRecords(records: map<Inode, Record>): set<(RunId, Option<GenerationId>)> {
    set t | t in records && records[t].phase.Run().Some? :: (records[t].phase.Run().value, records[t].latest)
  }

  function RunRecord(rec: Record): set<(RunId, Option<GenerationId>)> {
    if rec.phase.Run().Some? then {(rec.phase.Run().value, rec.latest)} else {}
  }

  lemma OneMoreRecord(records: map<Inode, Record>, t: Inode, rec: Record)
    requires t !in records
    ensures RunRecords(records[t := rec]) == RunRecords(records) + RunRecord(rec)
  {
    var records' := records[t := rec];
    forall p | p in RunRecords(records) ensures p in RunRecords(records') {
      var u :| u in records && records[u].phase.Run().Some? && p == (records[u].phase.Run().value, records[u].latest);
      assert records'[u] == records[u];
    }
    assert t in records' && records'[t] == rec;
  }

  lemma RecordedRun(d: Disk)
    requires CrashSafe(d) && RecordOf(d.view).Some?
    ensures RunRecord(RecordOf(d.view).value) <= RunRecords(d.ledger.records)
  {
    ViewIsGood(d);
  }

  /** No run's disk changed, and no record names a run or a saved state beside it anew. */
  ghost predicate SameRuns(a: Disk, b: Disk) {
    Images(a.view) == Images(b.view) && RunRecords(a.ledger.records) == RunRecords(b.ledger.records)
  }

  // --------------------------------------------------------------- committed for good

  predicate IsCommitLoc(l: Loc) { l.RecordEntry? || l.RecordFile? || l.RefEntry? || l.RefFile? }

  predicate IsCommitObj(o: Obj) { o.InstanceDir? || o.CheckpointsDir? || o.RecordTemp? || o.RefTemp? }

  /** The records and references, and the entries naming them, that no sync covers yet. */
  function Unsynced(log: seq<Entry>): set<Loc> {
    set l | l in Pending(log) && IsCommitLoc(l)
  }

  lemma UnsyncedMore(log: seq<Entry>, e: Entry)
    ensures e.Put? && !IsCommitLoc(e.loc) ==> Unsynced(log + [e]) == Unsynced(log)
    ensures e.Sync? && !IsCommitObj(e.obj) ==> Unsynced(log + [e]) == Unsynced(log)
  {
    assert (log + [e])[..|log|] == log;
  }

  /** The record has been synced, and so has the entry that names it. */
  ghost predicate RecordDurable(d: Disk) {
    && RecordEntry !in Unsynced(d.log)
    && (Get(d.view, RecordEntry).Link? ==> RecordFile(Get(d.view, RecordEntry).inode) !in Unsynced(d.log))
  }

  lemma DurableIs(d: Disk, t: Inode)
    requires RecordEntry !in Pending(d.log) && RecordFile(t) !in Pending(d.log) && Get(d.view, RecordEntry) == Link(t)
    ensures RecordDurable(d)
  {
  }

  ghost predicate RefDurable(d: Disk, c: CheckpointId) {
    && RefEntry(c) !in Unsynced(d.log)
    && (Get(d.view, RefEntry(c)).Link? ==> RefFile(Get(d.view, RefEntry(c)).inode) !in Unsynced(d.log))
  }

  lemma RefDurableIs(d: Disk, c: CheckpointId, t: Inode)
    requires RefEntry(c) !in Pending(d.log) && RefFile(t) !in Pending(d.log) && Get(d.view, RefEntry(c)) == Link(t)
    ensures RefDurable(d, c)
  {
  }

  lemma DurableKept(a: Disk, b: Disk)
    requires RecordDurable(a) && Unsynced(b.log) == Unsynced(a.log) && Get(b.view, RecordEntry) == Get(a.view, RecordEntry)
    ensures RecordDurable(b)
  {
  }
}
