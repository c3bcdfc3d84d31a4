/**
  What a crash may show of an instance store and still be good, and why each
  kind of write the store issues keeps it so.
 */
module StoreModel {
  import opened Layout
  import opened Journal

  type Files = map<Name, Content>

  /** What has been written so far, kept for the proofs: the contents of each
      generation at the moment it was published, the files each run was given,
      and what each committed temporary file holds. */
  datatype Ledger = Ledger(
    published: map<GenerationId, Files>,
    prepared: map<RunId, set<Name>>,
    records: map<Inode, Record>,
    refs: map<Inode, CheckpointRef>,
    nextGen: GenerationId,
    nextRun: RunId,
    nextInode: Inode)

  function Size(c: Content): nat {
    match c
    case Data(w) => |w|
    case Tree(w) => |w|
    case ManifestDoc(_) => 0
  }

  /** The manifest `publish` writes describes the directory it is in
      (src/store.rs:762-786). */
  ghost predicate Describes(m: Manifest, g: GenerationId, files: Files) {
    && m.id == g
    && (forall n :: n in m.files <==> n in files && files[n].Data? && n != MANIFEST && n != PIN)
    && (forall n :: n in m.files ==> m.files[n] == Size(files[n]))
    && ROOTFS in m.files
  }

  ghost predicate WellFormed(g: GenerationId, files: Files) {
    && MANIFEST in files && files[MANIFEST].ManifestDoc?
    && Describes(files[MANIFEST].manifest, g, files)
    && PIN in files
  }

  /** The top-level regular files a manifest lists, with their sizes. */
  function ManifestFiles(files: Files): map<Name, nat> {
    map n | n in files && files[n].Data? && n != MANIFEST && n != PIN :: Size(files[n])
  }

  /** What a staging directory holding `files` becomes when published. */
  function PublishedFiles(g: GenerationId, parent: Option<GenerationId>, origin: Origin, files: Files): Files {
    files[MANIFEST := ManifestDoc(Manifest(g, parent, origin, ManifestFiles(files)))][PIN := Data([])]
  }

  lemma PublishedIsWellFormed(g: GenerationId, parent: Option<GenerationId>, origin: Origin, files: Files)
    requires ROOTFS in ManifestFiles(files)
    ensures WellFormed(g, PublishedFiles(g, parent, origin, files))
    ensures forall n :: OriginStarted(origin, n) ==> Started(PublishedFiles(g, parent, origin, files), n)
  {
  }

  /** A final snapshot belongs to a run that was started. */
  ghost predicate Started(files: Files, nextRun: RunId) {
    MANIFEST in files && files[MANIFEST].ManifestDoc? ==> OriginStarted(files[MANIFEST].manifest.origin, nextRun)
  }

  predicate OriginStarted(origin: Origin, nextRun: RunId) {
    origin.Snapshot? ==> origin.run < nextRun
  }

  ghost predicate LedgerOk(ledger: Ledger) {
    && (forall g :: g in ledger.published ==>
          g < ledger.nextGen && WellFormed(g, ledger.published[g]) && Started(ledger.published[g], ledger.nextRun))
    && (forall r :: r in ledger.prepared ==> r < ledger.nextRun)
    && (forall t :: t in ledger.records ==> t < ledger.nextInode)
    && (forall t :: t in ledger.refs ==> t < ledger.nextInode)
  }

  /** The ledger only grows; in particular published contents never change. */
  ghost predicate Grows(a: Ledger, b: Ledger) {
    && (forall g :: g in a.published ==> g in b.published && b.published[g] == a.published[g])
    && (forall r :: r in a.prepared ==> r in b.prepared && b.prepared[r] == a.prepared[r])
    && (forall t :: t in a.records ==> t in b.records && b.records[t] == a.records[t])
    && (forall t :: t in a.refs ==> t in b.refs && b.refs[t] == a.refs[t])
    && a.nextGen <= b.nextGen && a.nextRun <= b.nextRun && a.nextInode <= b.nextInode
  }

  /** `generations/<g>` holds exactly the files it was published with. */
  ghost predicate Complete(fs: Fs, ledger: Ledger, g: GenerationId) {
    && g in ledger.published
    && Get(fs, GenDir(g)) == DirVal(InPlace)
    && forall n :: ChildIs(fs, g, n, ledger.published[g])
  }

  ghost predicate ChildIs(fs: Fs, g: GenerationId, n: Name, files: Files) {
    if n in files then
      Get(fs, GenName(g, n)) == Present && Get(fs, GenFile(g, n)) == FileVal(files[n])
    else
      Get(fs, GenName(g, n)) == Absent
  }

  /** `runs/<r>` is there with every file the run was given. */
  ghost predicate RunComplete(fs: Fs, ledger: Ledger, r: RunId) {
    && r in ledger.prepared
    && Get(fs, RunDir(r)) == DirVal(InPlace)
    && forall n :: n in ledger.prepared[r] ==> RunChild(fs, r, n)
  }

  ghost predicate RunChild(fs: Fs, r: RunId, n: Name) {
    Get(fs, RunName(r, n)) == Present && Get(fs, RunFile(r, n)).FileVal?
  }

  ghost predicate RecordSupported(fs: Fs, ledger: Ledger, rec: Record) {
    && (rec.latest.Some? ==> Complete(fs, ledger, rec.latest.value))
    && (rec.phase.Run().Some? ==> RunComplete(fs, ledger, rec.phase.Run().value))
  }

  /** The record is one whole committed record, and what it names is there. */
  ghost predicate RecordGood(fs: Fs, ledger: Ledger) {
    var e := Get(fs, RecordEntry);
    e == Absent ||
    (&& e.Link? && e.inode in ledger.records
     && Get(fs, RecordFile(e.inode)) == RecordVal(ledger.records[e.inode])
     && RecordSupported(fs, ledger, ledger.records[e.inode]))
  }

  ghost predicate RefGood(fs: Fs, ledger: Ledger, c: CheckpointId) {
    var e := Get(fs, RefEntry(c));
    e == Absent ||
    (&& e.Link? && e.inode in ledger.refs
     && Get(fs, RefFile(e.inode)) == RefVal(ledger.refs[e.inode])
     && ledger.refs[e.inode].id == c
     && Complete(fs, ledger, ledger.refs[e.inode].generation))
  }

  ghost predicate GenFresh(fs: Fs, g: GenerationId) {
    Get(fs, GenDir(g)) == Absent && forall n :: Get(fs, GenName(g, n)) == Absent
  }

  ghost predicate RunFresh(fs: Fs, r: RunId) {
    Get(fs, RunDir(r)) == Absent && forall n :: Get(fs, RunName(r, n)) == Absent && Get(fs, RunFile(r, n)) == Absent
  }

  ghost predicate InPlaceComplete(fs: Fs, ledger: Ledger) {
    forall g :: Get(fs, GenDir(g)) == DirVal(InPlace) ==> Complete(fs, ledger, g)
  }

  /** What every crash must leave behind (POSIX crash or power loss alike). */
  ghost predicate Good(fs: Fs, ledger: Ledger, journaled: bool) {
    && RecordGood(fs, ledger)
    && (forall c :: RefGood(fs, ledger, c))
    && (forall g :: ledger.nextGen <= g ==> GenFresh(fs, g))
    && (forall r :: ledger.nextRun <= r ==> RunFresh(fs, r))
    && (journaled ==> InPlaceComplete(fs, ledger))
  }

  ghost predicate Safe(base: Fs, log: seq<Entry>, journaled: bool, ledger: Ledger) {
    forall fs :: CrashState(base, log, journaled, fs) ==> Good(fs, ledger, journaled)
  }

  predicate StableLoc(pending: set<Loc>, journaled: bool, l: Loc) {
    l !in pending || (journaled && IsMeta(l))
  }

  ghost predicate GenSettled(fs: Fs, pending: set<Loc>, journaled: bool, ledger: Ledger, g: GenerationId) {
    && StableLoc(pending, journaled, GenDir(g))
    && (forall n :: StableLoc(pending, journaled, GenName(g, n)))
    && (g in ledger.published ==>
        forall n :: n in ledger.published[g] ==> StableLoc(pending, journaled, GenFile(g, n)))
  }

  /** Everything committed is ordered before any later directory update. */
  ghost predicate Settled(fs: Fs, pending: set<Loc>, journaled: bool, ledger: Ledger) {
    && StableLoc(pending, journaled, RecordEntry)
    && (Get(fs, RecordEntry).Link? ==> StableLoc(pending, journaled, RecordFile(Get(fs, RecordEntry).inode)))
    && (forall c :: StableLoc(pending, journaled, RefEntry(c)))
    && (forall c :: Get(fs, RefEntry(c)).Link? ==>
          StableLoc(pending, journaled, RefFile(Get(fs, RefEntry(c)).inode)))
    && (forall g :: Get(fs, GenDir(g)) == DirVal(InPlace) ==> GenSettled(fs, pending, journaled, ledger, g))
  }

  /** Syncing only settles more. */
  lemma SettledShrinks(fs: Fs, pending: set<Loc>, fewer: set<Loc>, journaled: bool, ledger: Ledger)
    requires Settled(fs, pending, journaled, ledger) && fewer <= pending
    ensures Settled(fs, fewer, journaled, ledger)
  {
    forall l | StableLoc(pending, journaled, l) ensures StableLoc(fewer, journaled, l) {}
    forall g | Get(fs, GenDir(g)) == DirVal(InPlace) ensures GenSettled(fs, fewer, journaled, ledger, g) {
      assert GenSettled(fs, pending, journaled, ledger, g);
    }
  }

  /** `fs` is a crash state that a write to `at` may extend, next to the current `view`. */
  ghost predicate Extends(fs: Fs, view: Fs, pending: set<Loc>, journaled: bool, at: Loc) {
    forall l :: l !in pending || (journaled && IsMeta(l) && IsMeta(at)) ==> Get(fs, l) == Get(view, l)
  }

  // ---------------------------------------------------------------- readers

  function RecordOf(fs: Fs): Option<Record> {
    var e := Get(fs, RecordEntry);
    if e.Link? && Get(fs, RecordFile(e.inode)).RecordVal? then
      Some(Get(fs, RecordFile(e.inode)).record)
    else None
  }

  function RefOf(fs: Fs, c: CheckpointId): Option<CheckpointRef> {
    var e := Get(fs, RefEntry(c));
    if e.Link? && Get(fs, RefFile(e.inode)).RefVal? then
      Some(Get(fs, RefFile(e.inode)).ref)
    else None
  }

  predicate IsInPlace(fs: Fs, g: GenerationId) {
    Get(fs, GenDir(g)) == DirVal(InPlace)
  }

  predicate Names(rec: Record, g: GenerationId) {
    rec.latest == Some(g)
  }

  /** `g` is not named, by the record or by a checkpoint. */
  ghost predicate Unnamed(fs: Fs, g: GenerationId) {
    && (RecordOf(fs).Some? ==> !Names(RecordOf(fs).value, g))
    && forall c :: RefOf(fs, c).Some? ==> RefOf(fs, c).value.generation != g
  }

  ghost predicate RunUnnamed(fs: Fs, r: RunId) {
    RecordOf(fs).Some? ==> RecordOf(fs).value.phase.Run() != Some(r)
  }

  // ------------------------------------------------- extending a safe journal

  lemma GoodGrows(fs: Fs, a: Ledger, b: Ledger, journaled: bool)
    requires Good(fs, a, journaled) && Grows(a, b)
    ensures Good(fs, b, journaled)
  {
    forall g | Complete(fs, a, g) ensures Complete(fs, b, g) {
      forall n ensures ChildIs(fs, g, n, b.published[g]) {
        assert ChildIs(fs, g, n, a.published[g]);
      }
    }
    forall c ensures RefGood(fs, b, c) { assert RefGood(fs, a, c); }
    forall r | RunComplete(fs, a, r) ensures RunComplete(fs, b, r) {
      forall n | n in b.prepared[r] ensures RunChild(fs, r, n) {}
    }
  }

  lemma SafePut(base: Fs, log: seq<Entry>, journaled: bool, a: Ledger, b: Ledger, l: Loc, v: Val)
    requires Safe(base, log, journaled, a) && Grows(a, b)
    requires forall fs ::
               Good(fs, a, journaled) && Extends(fs, View(base, log), Pending(log), journaled, l)
               ==> Good(fs[l := v], b, journaled)
    ensures Safe(base, log + [Put(l, v)], journaled, b)
  {
    forall fs | CrashState(base, log + [Put(l, v)], journaled, fs) ensures Good(fs, b, journaled) {
      var before := CrashAfterPut(base, log, journaled, l, v, fs);
      assert Good(before, a, journaled);
      if before == fs && CrashState(base, log, journaled, fs) {
        GoodGrows(fs, a, b, journaled);
      } else {
        forall k | k !in Pending(log) || (journaled && IsMeta(k) && IsMeta(l))
          ensures Get(before, k) == Get(View(base, log), k)
        {
          ForcedShowsStable(base, log, journaled, l, before, k);
        }
        assert Extends(before, View(base, log), Pending(log), journaled, l);
      }
    }
  }

  lemma SafeSync(base: Fs, log: seq<Entry>, journaled: bool, a: Ledger, o: Obj)
    requires Safe(base, log, journaled, a)
    ensures Safe(base, log + [Sync(o)], journaled, a)
  {
    forall fs | CrashState(base, log + [Sync(o)], journaled, fs) ensures Good(fs, a, journaled) {
      CrashAfterSync(base, log, journaled, o, fs);
    }
  }
}
