/**
  One lemma per kind of write the store issues: on top of any good crash state
  that the write is ordered after, the write leaves a good crash state.
 */
module StoreWrites {
  import opened Layout
  import opened Journal
  import opened StoreModel

  predicate OfGen(l: Loc, g: GenerationId) {
    match l
    case GenDir(h) => h == g
    case GenName(h, _) => h == g
    case GenFile(h, _) => h == g
    case _ => false
  }

  predicate OfRun(l: Loc, r: RunId) {
    match l
    case RunDir(q) => q == r
    case RunName(q, _) => q == r
    case RunFile(q, _) => q == r
    case _ => false
  }

  /** The part of an instance directory that one operation works on. */
  datatype Scope = InGen(gen: GenerationId) | InRun(run: RunId) | InRecord | InRefs

  predicate Within(l: Loc, s: Scope) {
    match s
    case InGen(g) => OfGen(l, g)
    case InRun(r) => OfRun(l, r)
    case InRecord => l.RecordEntry? || l.RecordFile?
    case InRefs => l.RefEntry? || l.RefFile?
  }

  /** Nothing outside the scope differs. */
  ghost predicate Only(s: Scope, a: Fs, b: Fs) {
    forall l :: !Within(l, s) ==> Get(a, l) == Get(b, l)
  }

  /** Nothing about other generations changes. */
  lemma CompleteUnless(fs: Fs, ledger: Ledger, l: Loc, v: Val, g: GenerationId)
    requires Complete(fs, ledger, g) && !OfGen(l, g)
    ensures Complete(fs[l := v], ledger, g)
  {
    var fs' := fs[l := v];
    forall n ensures ChildIs(fs', g, n, ledger.published[g]) {
      assert ChildIs(fs, g, n, ledger.published[g]);
    }
  }

  lemma RunCompleteUnless(fs: Fs, ledger: Ledger, l: Loc, v: Val, r: RunId)
    requires RunComplete(fs, ledger, r) && !OfRun(l, r)
    ensures RunComplete(fs[l := v], ledger, r)
  {
    forall n | n in ledger.prepared[r] ensures RunChild(fs[l := v], r, n) {
      assert RunChild(fs, r, n);
    }
  }

  ghost predicate CompletesKept(fs: Fs, ledger: Ledger, l: Loc, v: Val) {
    forall g :: Complete(fs, ledger, g) && !OfGen(l, g) ==> Complete(fs[l := v], ledger, g)
  }

  lemma KeepCompletes(fs: Fs, ledger: Ledger, l: Loc, v: Val)
    ensures CompletesKept(fs, ledger, l, v)
  {
    forall g | Complete(fs, ledger, g) && !OfGen(l, g) ensures Complete(fs[l := v], ledger, g) {
      CompleteUnless(fs, ledger, l, v, g);
    }
  }

  /** Writing inside a generation that is not named. */
  lemma UnnamedGenWrite(fs: Fs, a: Ledger, journaled: bool, g: GenerationId, l: Loc, v: Val)
    requires Good(fs, a, journaled) && OfGen(l, g) && g < a.nextGen
    requires Unnamed(fs, g)
    requires journaled && l.GenDir? ==> v != DirVal(InPlace)
    requires journaled && !l.GenDir? ==> Get(fs, GenDir(g)) != DirVal(InPlace)
    ensures Good(fs[l := v], a, journaled)
  {
    KeepCompletes(fs, a, l, v);
    var fs' := fs[l := v];
    assert RecordGood(fs', a) by {
      var e := Get(fs, RecordEntry);
      if e.Link? {
        var rec := a.records[e.inode];
        assert RecordOf(fs) == Some(rec);
        if rec.phase.Run().Some? { RunCompleteUnless(fs, a, l, v, rec.phase.Run().value); }
      }
    }
    forall c ensures RefGood(fs', a, c) {
      assert RefGood(fs, a, c);
      var e := Get(fs, RefEntry(c));
      if e.Link? { assert RefOf(fs, c) == Some(a.refs[e.inode]); }
    }
    forall h | a.nextGen <= h ensures GenFresh(fs', h) { assert GenFresh(fs, h); }
    forall r | a.nextRun <= r ensures RunFresh(fs', r) { assert RunFresh(fs, r); }
  }

  /** A generation that was never published is named by nothing. */
  lemma UnpublishedIsUnnamed(fs: Fs, a: Ledger, journaled: bool, g: GenerationId)
    requires Good(fs, a, journaled) && g !in a.published
    ensures Unnamed(fs, g)
    ensures journaled ==> Get(fs, GenDir(g)) != DirVal(InPlace)
  {
    forall c | RefOf(fs, c).Some? ensures RefOf(fs, c).value.generation != g {
      assert RefGood(fs, a, c);
    }
  }

  lemma StagingWrite(fs: Fs, a: Ledger, journaled: bool, g: GenerationId, l: Loc, v: Val)
    requires Good(fs, a, journaled) && OfGen(l, g) && g < a.nextGen && g !in a.published
    requires l.GenDir? ==> v != DirVal(InPlace)
    ensures Good(fs[l := v], a, journaled)
  {
    UnpublishedIsUnnamed(fs, a, journaled, g);
    UnnamedGenWrite(fs, a, journaled, g, l, v);
  }

  /** The rename that publishes a synced staging directory. */
  lemma PublishWrite(fs: Fs, view: Fs, pending: set<Loc>, a: Ledger, b: Ledger, journaled: bool,
                     g: GenerationId, files: Files)
    requires Good(fs, a, journaled) && Extends(fs, view, pending, journaled, GenDir(g))
    requires g < a.nextGen && g !in a.published
    requires forall n :: ChildIs(view, g, n, files)
    requires forall n :: StableLoc(pending, journaled, GenName(g, n))
    requires forall n :: n in files ==> StableLoc(pending, journaled, GenFile(g, n))
    requires b == a.(published := a.published[g := files])
    ensures Good(fs[GenDir(g) := DirVal(InPlace)], b, journaled)
  {
    var l, v := GenDir(g), DirVal(InPlace);
    var fs' := fs[l := v];
    UnpublishedIsUnnamed(fs, a, journaled, g);
    forall h | Complete(fs, a, h) ensures Complete(fs', b, h) {
      CompleteUnless(fs, a, l, v, h);
      forall n ensures ChildIs(fs', h, n, b.published[h]) { assert ChildIs(fs', h, n, a.published[h]); }
    }
    assert Complete(fs', b, g) by {
      forall n ensures ChildIs(fs', g, n, files) {
        assert ChildIs(view, g, n, files);
        assert Get(fs, GenName(g, n)) == Get(view, GenName(g, n));
        if n in files { assert Get(fs, GenFile(g, n)) == Get(view, GenFile(g, n)); }
      }
    }
    assert RecordGood(fs', b) by {
      var e := Get(fs, RecordEntry);
      if e.Link? {
        var rec := a.records[e.inode];
        if rec.phase.Run().Some? {
          var r := rec.phase.Run().value;
          RunCompleteUnless(fs, a, l, v, r);
          forall n | n in b.prepared[r] ensures RunChild(fs', r, n) {}
        }
      }
    }
    forall c ensures RefGood(fs', b, c) { assert RefGood(fs, a, c); }
    forall h | b.nextGen <= h ensures GenFresh(fs', h) { assert GenFresh(fs, h); }
    forall r | b.nextRun <= r ensures RunFresh(fs', r) { assert RunFresh(fs, r); }
  }

  /** Contents of a temporary file that no directory entry links yet. */
  lemma TempWrite(fs: Fs, a: Ledger, journaled: bool, l: Loc, v: Val)
    requires Good(fs, a, journaled)
    requires (l.RecordFile? && l.inode !in a.records) || (l.RefFile? && l.inode !in a.refs)
    ensures Good(fs[l := v], a, journaled)
  {
    KeepCompletes(fs, a, l, v);
    var fs' := fs[l := v];
    assert RecordGood(fs', a) by {
      var e := Get(fs, RecordEntry);
      if e.Link? && a.records[e.inode].phase.Run().Some? {
        RunCompleteUnless(fs, a, l, v, a.records[e.inode].phase.Run().value);
      }
    }
    forall c ensures RefGood(fs', a, c) { assert RefGood(fs, a, c); }
    forall h | a.nextGen <= h ensures GenFresh(fs', h) { assert GenFresh(fs, h); }
    forall r | a.nextRun <= r ensures RunFresh(fs', r) { assert RunFresh(fs, r); }
  }

  /** A settled generation that is in place now is complete in every state that
      a further directory update may extend. */
  lemma InPlaceIsComplete(fs: Fs, view: Fs, pending: set<Loc>, a: Ledger, journaled: bool, at: Loc, g: GenerationId)
    requires Extends(fs, view, pending, journaled, at) && IsMeta(at)
    requires Complete(view, a, g) && GenSettled(view, pending, journaled, a, g)
    ensures Complete(fs, a, g)
  {
    forall n ensures ChildIs(fs, g, n, a.published[g]) {
      assert ChildIs(view, g, n, a.published[g]);
      assert StableLoc(pending, journaled, GenName(g, n));
      assert Get(fs, GenName(g, n)) == Get(view, GenName(g, n));
      if n in a.published[g] { assert Get(fs, GenFile(g, n)) == Get(view, GenFile(g, n)); }
    }
    assert Get(fs, GenDir(g)) == Get(view, GenDir(g));
  }

  ghost predicate RunSettled(pending: set<Loc>, journaled: bool, ledger: Ledger, r: RunId) {
    && StableLoc(pending, journaled, RunDir(r))
    && (r in ledger.prepared ==> forall n :: n in ledger.prepared[r] ==>
          StableLoc(pending, journaled, RunName(r, n)) && StableLoc(pending, journaled, RunFile(r, n)))
  }

  lemma SettledRunIsComplete(fs: Fs, view: Fs, pending: set<Loc>, a: Ledger, journaled: bool, at: Loc, r: RunId)
    requires Extends(fs, view, pending, journaled, at) && IsMeta(at)
    requires RunComplete(view, a, r) && RunSettled(pending, journaled, a, r)
    ensures RunComplete(fs, a, r)
  {
    forall n | n in a.prepared[r] ensures RunChild(fs, r, n) {
      assert RunChild(view, r, n);
      assert Get(fs, RunName(r, n)) == Get(view, RunName(r, n));
      assert Get(fs, RunFile(r, n)) == Get(view, RunFile(r, n));
    }
    assert Get(fs, RunDir(r)) == Get(view, RunDir(r));
  }

  /** A settled record and settled refs are the same in every such state. */
  lemma SettledShows(fs: Fs, view: Fs, pending: set<Loc>, a: Ledger, journaled: bool, at: Loc)
    requires Extends(fs, view, pending, journaled, at) && IsMeta(at)
    requires Settled(view, pending, journaled, a)
    ensures RecordOf(fs) == RecordOf(view)
    ensures forall c :: RefOf(fs, c) == RefOf(view, c)
  {
    assert Get(fs, RecordEntry) == Get(view, RecordEntry);
    var e := Get(view, RecordEntry);
    if e.Link? { assert Get(fs, RecordFile(e.inode)) == Get(view, RecordFile(e.inode)); }
    forall c ensures RefOf(fs, c) == RefOf(view, c) {
      assert StableLoc(pending, journaled, RefEntry(c));
      assert Get(fs, RefEntry(c)) == Get(view, RefEntry(c));
      var e := Get(view, RefEntry(c));
      if e.Link? { assert Get(fs, RefFile(e.inode)) == Get(view, RefFile(e.inode)); }
    }
  }

  /** The rename that commits a record. */
  lemma RecordWrite(fs: Fs, view: Fs, pending: set<Loc>, a: Ledger, journaled: bool, t: Inode)
    requires Good(fs, a, journaled) && Extends(fs, view, pending, journaled, RecordEntry)
    requires InPlaceComplete(view, a) && Settled(view, pending, journaled, a)
    requires t in a.records && Get(view, RecordFile(t)) == RecordVal(a.records[t])
    requires RecordFile(t) !in pending
    requires a.records[t].latest.Some? ==> IsInPlace(view, a.records[t].latest.value)
    requires var run := a.records[t].phase.Run();
             run.Some? ==>
               || (RecordOf(view).Some? && RecordOf(view).value.phase.Run() == run)
               || (RunComplete(view, a, run.value) && RunSettled(pending, journaled, a, run.value))
    ensures Good(fs[RecordEntry := Link(t)], a, journaled)
  {
    var l, v := RecordEntry, Link(t);
    var fs' := fs[l := v];
    var rec := a.records[t];
    KeepCompletes(fs, a, l, v);
    if rec.latest.Some? {
      InPlaceIsComplete(fs, view, pending, a, journaled, l, rec.latest.value);
      assert Complete(fs', a, rec.latest.value);
    }
    if rec.phase.Run().Some? {
      var r := rec.phase.Run().value;
      if RecordOf(view).Some? && RecordOf(view).value.phase.Run() == Some(r) {
        SettledShows(fs, view, pending, a, journaled, l);
        assert RecordGood(fs, a);
      } else {
        SettledRunIsComplete(fs, view, pending, a, journaled, l, r);
      }
      assert RunComplete(fs, a, r);
      RunCompleteUnless(fs, a, l, v, r);
    }
    assert Get(fs, RecordFile(t)) == Get(view, RecordFile(t));
    assert RecordGood(fs', a);
    forall c ensures RefGood(fs', a, c) { assert RefGood(fs, a, c); }
    forall h | a.nextGen <= h ensures GenFresh(fs', h) { assert GenFresh(fs, h); }
    forall r | a.nextRun <= r ensures RunFresh(fs', r) { assert RunFresh(fs, r); }
  }

  /** The rename that commits a checkpoint ref, or the unlink that removes one. */
  lemma RefWrite(fs: Fs, view: Fs, pending: set<Loc>, a: Ledger, journaled: bool, c: CheckpointId, v: Val)
    requires Good(fs, a, journaled) && Extends(fs, view, pending, journaled, RefEntry(c))
    requires InPlaceComplete(view, a) && Settled(view, pending, journaled, a)
    requires
      || v == Absent
      || (&& v.Link? && v.inode in a.refs && Get(view, RefFile(v.inode)) == RefVal(a.refs[v.inode])
          && RefFile(v.inode) !in pending && a.refs[v.inode].id == c
          && IsInPlace(view, a.refs[v.inode].generation))
    ensures Good(fs[RefEntry(c) := v], a, journaled)
  {
    var l := RefEntry(c);
    var fs' := fs[l := v];
    KeepCompletes(fs, a, l, v);
    if v.Link? {
      InPlaceIsComplete(fs, view, pending, a, journaled, l, a.refs[v.inode].generation);
      assert Get(fs, RefFile(v.inode)) == Get(view, RefFile(v.inode));
    }
    assert RecordGood(fs', a) by {
      var e := Get(fs, RecordEntry);
      if e.Link? && a.records[e.inode].phase.Run().Some? {
        RunCompleteUnless(fs, a, l, v, a.records[e.inode].phase.Run().value);
      }
    }
    forall d ensures RefGood(fs', a, d) { assert RefGood(fs, a, d); }
    forall h | a.nextGen <= h ensures GenFresh(fs', h) { assert GenFresh(fs, h); }
    forall r | a.nextRun <= r ensures RunFresh(fs', r) { assert RunFresh(fs, r); }
  }

  /** Removing a generation that the settled record and refs do not name: moving
      it to trash, then unlinking its files and the directory. */
  lemma CollectWrite(fs: Fs, view: Fs, pending: set<Loc>, a: Ledger, journaled: bool, g: GenerationId, l: Loc, v: Val)
    requires Good(fs, a, journaled) && Extends(fs, view, pending, journaled, l)
    requires Settled(view, pending, journaled, a)
    requires OfGen(l, g) && IsMeta(l) && g < a.nextGen && Unnamed(view, g)
    requires l.GenDir? ==> v != DirVal(InPlace)
    requires l.GenName? ==> Get(view, GenDir(g)) != DirVal(InPlace)
    ensures Good(fs[l := v], a, journaled)
  {
    SettledShows(fs, view, pending, a, journaled, l);
    UnnamedGenWrite(fs, a, journaled, g, l, v);
  }

  /** Writing to a run directory that no record names. */
  lemma UnnamedRunWrite(fs: Fs, a: Ledger, journaled: bool, r: RunId, l: Loc, v: Val)
    requires Good(fs, a, journaled) && OfRun(l, r) && r < a.nextRun && RunUnnamed(fs, r)
    ensures Good(fs[l := v], a, journaled)
  {
    KeepCompletes(fs, a, l, v);
    var fs' := fs[l := v];
    assert RecordGood(fs', a) by {
      var e := Get(fs, RecordEntry);
      if e.Link? {
        assert RecordOf(fs) == Some(a.records[e.inode]);
        if a.records[e.inode].phase.Run().Some? {
          RunCompleteUnless(fs, a, l, v, a.records[e.inode].phase.Run().value);
        }
      }
    }
    forall c ensures RefGood(fs', a, c) { assert RefGood(fs, a, c); }
    forall h | a.nextGen <= h ensures GenFresh(fs', h) { assert GenFresh(fs, h); }
    forall q | a.nextRun <= q ensures RunFresh(fs', q) { assert RunFresh(fs, q); }
  }

  /** The guest writing its own disk in place. */
  lemma GuestWrite(fs: Fs, a: Ledger, journaled: bool, r: RunId, n: Name, c: Content)
    requires Good(fs, a, journaled) && r < a.nextRun
    ensures Good(fs[RunFile(r, n) := FileVal(c)], a, journaled)
  {
    var l, v := RunFile(r, n), FileVal(c);
    KeepCompletes(fs, a, l, v);
    var fs' := fs[l := v];
    assert RecordGood(fs', a) by {
      var e := Get(fs, RecordEntry);
      if e.Link? && a.records[e.inode].phase.Run().Some? {
        var q := a.records[e.inode].phase.Run().value;
        forall m | m in a.prepared[q] ensures RunChild(fs', q, m) { assert RunChild(fs, q, m); }
      }
    }
    forall d ensures RefGood(fs', a, d) { assert RefGood(fs, a, d); }
    forall h | a.nextGen <= h ensures GenFresh(fs', h) { assert GenFresh(fs, h); }
    forall q | a.nextRun <= q ensures RunFresh(fs', q) { assert RunFresh(fs, q); }
  }

  /** Where the instance directory itself is named does not matter inside it. */
  lemma HomeWrite(fs: Fs, a: Ledger, journaled: bool, v: Val)
    requires Good(fs, a, journaled)
    ensures Good(fs[HomeEntry := v], a, journaled)
  {
    var l := HomeEntry;
    KeepCompletes(fs, a, l, v);
    var fs' := fs[l := v];
    assert RecordGood(fs', a) by {
      var e := Get(fs, RecordEntry);
      if e.Link? && a.records[e.inode].phase.Run().Some? {
        RunCompleteUnless(fs, a, l, v, a.records[e.inode].phase.Run().value);
      }
    }
    forall c ensures RefGood(fs', a, c) { assert RefGood(fs, a, c); }
    forall h | a.nextGen <= h ensures GenFresh(fs', h) { assert GenFresh(fs, h); }
    forall r | a.nextRun <= r ensures RunFresh(fs', r) { assert RunFresh(fs, r); }
  }

  // -------------------------------------------- what the writes leave settled

  /** Writing inside a generation that is not in place unsettles nothing. */
  lemma GenWriteSettled(view: Fs, pending: set<Loc>, journaled: bool, a: Ledger, g: GenerationId, l: Loc, v: Val)
    requires InPlaceComplete(view, a) && Settled(view, pending, journaled, a)
    requires OfGen(l, g) && Get(view[l := v], GenDir(g)) != DirVal(InPlace)
    ensures InPlaceComplete(view[l := v], a) && Settled(view[l := v], pending + {l}, journaled, a)
  {
    var view' := view[l := v];
    var pending' := pending + {l};
    forall h | Get(view', GenDir(h)) == DirVal(InPlace)
      ensures Complete(view', a, h) && GenSettled(view', pending', journaled, a, h)
    {
      CompleteUnless(view, a, l, v, h);
      assert GenSettled(view, pending, journaled, a, h);
      forall n ensures StableLoc(pending', journaled, GenName(h, n)) {
        assert StableLoc(pending, journaled, GenName(h, n));
      }
    }
    forall c ensures StableLoc(pending', journaled, RefEntry(c)) {
      assert StableLoc(pending, journaled, RefEntry(c));
    }
  }

  /** So does writing outside generations, records and refs. */
  lemma OtherWriteSettled(view: Fs, pending: set<Loc>, journaled: bool, a: Ledger, l: Loc, v: Val)
    requires InPlaceComplete(view, a) && Settled(view, pending, journaled, a)
    requires
      || l.RunDir? || l.RunName? || l.RunFile? || l.HomeEntry?
      || (l.RecordFile? && Get(view, RecordEntry) != Link(l.inode))
      || (l.RefFile? && forall c :: Get(view, RefEntry(c)) != Link(l.inode))
    ensures InPlaceComplete(view[l := v], a) && Settled(view[l := v], pending + {l}, journaled, a)
  {
    var view' := view[l := v];
    var pending' := pending + {l};
    forall h | Get(view', GenDir(h)) == DirVal(InPlace)
      ensures Complete(view', a, h) && GenSettled(view', pending', journaled, a, h)
    {
      CompleteUnless(view, a, l, v, h);
      assert GenSettled(view, pending, journaled, a, h);
      forall n ensures StableLoc(pending', journaled, GenName(h, n)) {
        assert StableLoc(pending, journaled, GenName(h, n));
      }
    }
    forall c ensures StableLoc(pending', journaled, RefEntry(c)) {
      assert StableLoc(pending, journaled, RefEntry(c));
    }
  }

  lemma SettledGrows(view: Fs, pending: set<Loc>, journaled: bool, a: Ledger, b: Ledger)
    requires InPlaceComplete(view, a) && Settled(view, pending, journaled, a) && Grows(a, b)
    ensures InPlaceComplete(view, b) && Settled(view, pending, journaled, b)
  {
    forall h | Get(view, GenDir(h)) == DirVal(InPlace)
      ensures Complete(view, b, h) && GenSettled(view, pending, journaled, b, h)
    {
      assert Complete(view, a, h) && GenSettled(view, pending, journaled, a, h);
      forall n ensures ChildIs(view, h, n, b.published[h]) { assert ChildIs(view, h, n, a.published[h]); }
    }
  }

  lemma SafeGrows(base: Fs, log: seq<Entry>, journaled: bool, a: Ledger, b: Ledger)
    requires Safe(base, log, journaled, a) && Grows(a, b)
    ensures Safe(base, log, journaled, b)
  {
    forall fs | CrashState(base, log, journaled, fs) ensures Good(fs, b, journaled) {
      GoodGrows(fs, a, b, journaled);
    }
  }

  /** Publishing settles the new generation except for its own directory entry ... */
  lemma PublishSettles(view: Fs, pending: set<Loc>, journaled: bool, a: Ledger, b: Ledger, g: GenerationId, files: Files)
    requires InPlaceComplete(view, a) && Settled(view, pending, journaled, a)
    requires g !in a.published && b == a.(published := a.published[g := files])
    requires forall n :: ChildIs(view, g, n, files)
    requires forall n :: GenName(g, n) !in pending
    requires forall n :: n in files ==> GenFile(g, n) !in pending
    ensures var view' := view[GenDir(g) := DirVal(InPlace)];
            && InPlaceComplete(view', b)
            && (journaled ==> Settled(view', pending + {GenDir(g)}, journaled, b))
  {
    var view' := view[GenDir(g) := DirVal(InPlace)];
    var pending' := pending + {GenDir(g)};
    forall h | Get(view', GenDir(h)) == DirVal(InPlace) ensures Complete(view', b, h) {
      if h == g {
        forall n ensures ChildIs(view', g, n, files) { assert ChildIs(view, g, n, files); }
      } else {
        CompleteUnless(view, a, GenDir(g), DirVal(InPlace), h);
        forall n ensures ChildIs(view', h, n, b.published[h]) { assert ChildIs(view', h, n, a.published[h]); }
      }
    }
    if journaled {
      PublishSettled(view, pending, pending', journaled, a, b, g, files);
    }
  }

  /** ... and the directory sync settles that one too. */
  lemma PublishSettled(view: Fs, pending: set<Loc>, pending': set<Loc>, journaled: bool, a: Ledger, b: Ledger,
                       g: GenerationId, files: Files)
    requires InPlaceComplete(view, a) && Settled(view, pending, journaled, a)
    requires g !in a.published && b == a.(published := a.published[g := files])
    requires forall n :: GenName(g, n) !in pending
    requires forall n :: n in files ==> GenFile(g, n) !in pending
    requires pending' <= pending + {GenDir(g)} && StableLoc(pending', journaled, GenDir(g))
    ensures Settled(view[GenDir(g) := DirVal(InPlace)], pending', journaled, b)
  {
    var view' := view[GenDir(g) := DirVal(InPlace)];
    forall h | Get(view', GenDir(h)) == DirVal(InPlace)
      ensures GenSettled(view', pending', journaled, b, h)
    {
      if h != g {
        assert GenSettled(view, pending, journaled, a, h);
        forall n ensures StableLoc(pending', journaled, GenName(h, n)) {
          assert StableLoc(pending, journaled, GenName(h, n));
        }
        forall n | n in b.published[h] ensures StableLoc(pending', journaled, GenFile(h, n)) {
          assert Complete(view, a, h);
        }
      }
    }
    forall c ensures StableLoc(pending', journaled, RefEntry(c)) {
      assert StableLoc(pending, journaled, RefEntry(c));
    }
  }

  /** Committing a directory entry whose file is synced: settled once the
      directory is synced, or at once on a journaled file system. */
  lemma EntrySettled(view: Fs, pending: set<Loc>, pending': set<Loc>, journaled: bool, a: Ledger, l: Loc, v: Val)
    requires InPlaceComplete(view, a) && Settled(view, pending, journaled, a)
    requires pending' <= pending + {l}
    requires
      || (l.RecordEntry? && v.Link? && RecordFile(v.inode) !in pending)
      || (l.RefEntry? && (v == Absent || (v.Link? && RefFile(v.inode) !in pending)))
    ensures InPlaceComplete(view[l := v], a)
    ensures StableLoc(pending', journaled, l) ==> Settled(view[l := v], pending', journaled, a)
  {
    var view' := view[l := v];
    forall h | Get(view', GenDir(h)) == DirVal(InPlace)
      ensures Complete(view', a, h) && GenSettled(view', pending', journaled, a, h)
    {
      CompleteUnless(view, a, l, v, h);
      assert GenSettled(view, pending, journaled, a, h);
      forall n ensures StableLoc(pending', journaled, GenName(h, n)) {
        assert StableLoc(pending, journaled, GenName(h, n));
      }
    }
    if StableLoc(pending', journaled, l) {
      forall c ensures StableLoc(pending', journaled, RefEntry(c)) {
        assert StableLoc(pending, journaled, RefEntry(c));
      }
    }
  }
}
