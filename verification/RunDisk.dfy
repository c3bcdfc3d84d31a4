/**
  The disk of a run over one boot: it only gains guest writes, a crash shows it as
  it was at one moment, and on a drive whose syncs wait that moment is not before
  the last sync of the file.
 */
module RunDisks {
  import opened Layout
  import opened Journal

  /** The guest writes in a disk image; none if it is not there. */
  function DiskImage(v: Val): seq<nat> {
    if v.FileVal? && v.content.Data? then v.content.writes else []
  }

  /** The writes on a run's disk when the log was `k` entries long. */
  function ImageAt(base: Fs, log: seq<Entry>, k: nat, r: RunId): seq<nat>
    requires k <= |log|
  {
    DiskImage(Get(View(base, log[..k]), RunFile(r, ROOTFS)))
  }

  /** No run's disk loses a write while the machine is up. */
  ghost predicate ImagesGrow(base: Fs, log: seq<Entry>) {
    forall r: RunId, j: nat, k: nat :: j <= k <= |log| ==> ImageAt(base, log, j, r) <= ImageAt(base, log, k, r)
  }

  lemma GrowsOver(base: Fs, log: seq<Entry>, e: Entry)
    requires ImagesGrow(base, log)
    requires e.Put? && e.loc.RunFile? && e.loc.name == ROOTFS ==> DiskImage(Get(View(base, log), e.loc)) <= DiskImage(e.val)
    ensures ImagesGrow(base, log + [e])
  {
    hide ImageAt, View, DiskImage;
    var log', n := log + [e], |log|;
    forall r: RunId, j: nat, k: nat | j <= k <= |log'| ensures ImageAt(base, log', j, r) <= ImageAt(base, log', k, r) {
      if k <= n {
        ImageBefore(base, log, e, j, r);
        ImageBefore(base, log, e, k, r);
      } else if j <= n {
        ImageBefore(base, log, e, j, r);
        ImageLast(base, log, e, r);
      }
    }
  }

  lemma ImageBefore(base: Fs, log: seq<Entry>, e: Entry, k: nat, r: RunId)
    requires k <= |log|
    ensures ImageAt(base, log + [e], k, r) == ImageAt(base, log, k, r)
  {
    hide View, DiskImage;
    assert (log + [e])[..k] == log[..k];
  }

  lemma ImageLast(base: Fs, log: seq<Entry>, e: Entry, r: RunId)
    requires e.Put? && e.loc.RunFile? && e.loc.name == ROOTFS ==> DiskImage(Get(View(base, log), e.loc)) <= DiskImage(e.val)
    ensures ImageAt(base, log, |log|, r) <= ImageAt(base, log + [e], |log| + 1, r)
  {
    hide DiskImage;
    assert (log + [e])[..|log|] == log && (log + [e])[..|log| + 1] == log + [e] && log[..|log|] == log;
  }

  /** A crash shows each location as it was at one moment; if every write to it
      before `b` was kept, at `b` or later. */
  lemma {:induction false} SurvivorIsPast(base: Fs, log: seq<Entry>, keep: set<nat>, l: Loc, b: nat) returns (k: nat)
    requires b <= |log| && forall i: nat :: i < b && IsPut(log, i) && log[i].loc == l ==> i in keep
    ensures b <= k <= |log| && Get(Survive(base, log, keep), l) == Get(View(base, log[..k]), l)
    decreases |log|
  {
    var n := |log| - 1;
    if b == |log| {
      k := b;
      AgreesAt(base, log, keep, l);
      assert log[..k] == log;
    } else if log[n].Put? && log[n].loc == l && n in keep {
      k := |log|;
      assert log[..k] == log;
    } else {
      var front := log[..n];
      forall i: nat | i < b && IsPut(front, i) && front[i].loc == l ensures i in keep {
        assert IsPut(log, i) && log[i] == front[i];
      }
      k := SurvivorIsPast(base, front, keep, l, b);
      assert front[..k] == log[..k];
    }
  }

  /** So whatever a crash shows of a run's disk is an earlier state of it. */
  lemma CrashShowsEarlierImage(base: Fs, log: seq<Entry>, journaled: bool, fs: Fs, r: RunId)
    requires ImagesGrow(base, log) && CrashState(base, log, journaled, fs)
    ensures DiskImage(Get(fs, RunFile(r, ROOTFS))) <= DiskImage(Get(View(base, log), RunFile(r, ROOTFS)))
  {
    var keep: set<nat> :| Allowed(log, keep, journaled) && fs == Survive(base, log, keep);
    var k := SurvivorIsPast(base, log, keep, RunFile(r, ROOTFS), 0);
    assert log[..|log|] == log;
    assert ImageAt(base, log, k, r) <= ImageAt(base, log, |log|, r);
  }

  // ------------------------------------------------------------- drives that wait

  /** How long the log was when the file or directory of `l` was last synced; 0 if
      it was not synced since boot. */
  function LastSync(log: seq<Entry>, l: Loc): (b: nat)
    ensures b <= |log| && (b > 0 ==> log[b - 1] == Sync(ObjOf(l)))
    ensures forall i: nat :: b <= i < |log| ==> log[i] != Sync(ObjOf(l))
    decreases |log|
  {
    if log == [] then 0
    else if log[|log| - 1] == Sync(ObjOf(l)) then |log|
    else LastSync(log[..|log| - 1], l)
  }

  /** What is on a run's disk for good: its contents at the last sync. */
  function SyncedImage(base: Fs, log: seq<Entry>, r: RunId): seq<nat> {
    ImageAt(base, log, LastSync(log, RunFile(r, ROOTFS)), r)
  }

  /** It only grows. */
  lemma SyncedGrows(base: Fs, log: seq<Entry>, j: nat, k: nat, r: RunId)
    requires ImagesGrow(base, log) && j <= k <= |log|
    ensures SyncedImage(base, log[..j], r) <= SyncedImage(base, log[..k], r)
  {
    hide ImageAt, DiskImage;
    var l := RunFile(r, ROOTFS);
    var b, c := LastSync(log[..j], l), LastSync(log[..k], l);
    if b > 0 {
      assert log[..k][b - 1] == log[..j][b - 1];
    }
    assert b <= c;
    SameImage(base, log, j, b, r);
    SameImage(base, log, k, c, r);
    assert ImageAt(base, log, b, r) <= ImageAt(base, log, c, r);
  }

  lemma SameImage(base: Fs, log: seq<Entry>, j: nat, k: nat, r: RunId)
    requires k <= j <= |log|
    ensures ImageAt(base, log[..j], k, r) == ImageAt(base, log, k, r)
  {
    hide DiskImage, View;
    assert log[..j][..k] == log[..k];
  }

  /** On a journaled file system a crash shows the directory entries of one moment, and
      of each run's disk at least what had been synced by then: a sync need not wait, but
      it comes before every later directory update. */
  lemma MomentHasSynced(base: Fs, log: seq<Entry>, journaled: bool, fs: Fs) returns (k: nat)
    requires journaled && CrashState(base, log, journaled, fs) && ImagesGrow(base, log)
    ensures k <= |log|
    ensures forall l | IsMeta(l) :: Get(fs, l) == Get(View(base, log[..k]), l)
    ensures forall r :: SyncedImage(base, log[..k], r) <= DiskImage(Get(fs, RunFile(r, ROOTFS)))
  {
    hide View, DiskImage, ImageAt, ImagesGrow;
    var keep: set<nat> :| Allowed(log, keep, journaled) && fs == Survive(base, log, keep);
    k := MetaCut(log, keep);
    forall l | IsMeta(l) ensures Get(fs, l) == Get(View(base, log[..k]), l) {
      MetaAtCut(base, log, keep, k, l);
    }
    forall r ensures SyncedImage(base, log[..k], r) <= DiskImage(Get(fs, RunFile(r, ROOTFS))) {
      KeptWrites(base, log, keep, k, r);
    }
  }

  lemma KeptWrites(base: Fs, log: seq<Entry>, keep: set<nat>, k: nat, r: RunId)
    requires BarrierClosed(log, keep) && ImagesGrow(base, log)
    requires k <= |log| && (k > 0 ==> MetaPut(log, k - 1) && k - 1 in keep)
    ensures SyncedImage(base, log[..k], r) <= DiskImage(Get(Survive(base, log, keep), RunFile(r, ROOTFS)))
  {
    hide View, DiskImage, Survive;
    var l := RunFile(r, ROOTFS);
    var b := LastSync(log[..k], l);
    forall i: nat | i < b && IsPut(log, i) && log[i].loc == l ensures i in keep {
      assert log[b - 1] == log[..k][b - 1];
      assert Covers(log, i, b - 1) && b - 1 < k - 1 && IsPut(log, k - 1);
    }
    var j := SurvivorIsPast(base, log, keep, l, b);
    SameImage(base, log, k, b, r);
    assert ImageAt(base, log, b, r) <= ImageAt(base, log, j, r);
  }

  /** A file whose every write is synced is synced as it is. */
  lemma AllSynced(base: Fs, log: seq<Entry>, r: RunId)
    requires RunFile(r, ROOTFS) !in Pending(log)
    ensures SyncedImage(base, log, r) == DiskImage(Get(View(base, log), RunFile(r, ROOTFS)))
  {
    hide View, DiskImage, Pending;
    var l := RunFile(r, ROOTFS);
    forall i: nat | LastSync(log, l) <= i && IsPut(log, i) ensures log[i].loc != l {
      if log[i].loc == l { NotPendingIsSynced(log, i); }
    }
    NotWrittenSince(base, log, l, LastSync(log, l));
  }

  /** Where a sync waits, no crash shows less of a run's disk than was synced. */
  lemma FlushedShowsSynced(base: Fs, log: seq<Entry>, journaled: bool, fs: Fs, r: RunId)
    requires ImagesGrow(base, log) && FlushedCrashState(base, log, journaled, fs)
    ensures SyncedImage(base, log, r) <= DiskImage(Get(fs, RunFile(r, ROOTFS)))
  {
    var l := RunFile(r, ROOTFS);
    var b := LastSync(log, l);
    var keep: set<nat> :|
      Allowed(log, keep, journaled) && KeepsSynced(log, keep) && fs == Survive(base, log, keep);
    forall i: nat | i < b && IsPut(log, i) && log[i].loc == l ensures i in keep {
      assert Covers(log, i, b - 1);
    }
    var k := SurvivorIsPast(base, log, keep, l, b);
    assert ImageAt(base, log, b, r) <= ImageAt(base, log, k, r);
  }

  /** The writes left when the drive loses just those to `l` issued from `b` on. */
  function AllBut(log: seq<Entry>, l: Loc, b: nat): set<nat> {
    set i: nat | i < |log| && Below(i, |log|) && !(b <= i && log[i].Put? && log[i].loc == l)
  }

  /** It may, if no sync has covered them since; `l` is then as it was, and the rest as it is. */
  lemma SomeCrashLoses(base: Fs, log: seq<Entry>, journaled: bool, l: Loc, b: nat) returns (fs: Fs)
    requires !IsMeta(l) && LastSync(log, l) <= b <= |log|
    ensures Allowed(log, AllBut(log, l, b), journaled) && fs == Survive(base, log, AllBut(log, l, b))
    ensures FlushedCrashState(base, log, journaled, fs)
    ensures Get(fs, l) == Get(View(base, log[..b]), l)
    ensures forall m :: m != l ==> Get(fs, m) == Get(View(base, log), m)
  {
    var keep := AllBut(log, l, b);
    forall i: nat, c: nat, j: nat | Covers(log, i, c) && c < j && IsPut(log, j) && j in keep ensures i in keep {}
    forall i: nat | Synced(log, i) ensures i in keep {
      var c: nat :| Covers(log, i, c);
    }
    assert Allowed(log, keep, journaled) && KeepsSynced(log, keep);
    fs := Survive(base, log, keep);
    JustBefore(base, log, keep, l, b);
    forall m | m != l ensures Get(fs, m) == Get(View(base, log), m) {
      AgreesAt(base, log, keep, m);
    }
  }

  /** So some crash shows no more of a run's disk than was synced, with everything else
      as it was. */
  lemma SomeCrashShowsJustSynced(base: Fs, log: seq<Entry>, journaled: bool, r: RunId) returns (fs: Fs)
    ensures FlushedCrashState(base, log, journaled, fs)
    ensures DiskImage(Get(fs, RunFile(r, ROOTFS))) == SyncedImage(base, log, r)
    ensures forall l :: l != RunFile(r, ROOTFS) ==> Get(fs, l) == Get(View(base, log), l)
  {
    fs := SomeCrashLoses(base, log, journaled, RunFile(r, ROOTFS), LastSync(log, RunFile(r, ROOTFS)));
  }

  lemma {:induction false} JustBefore(base: Fs, log: seq<Entry>, keep: set<nat>, l: Loc, b: nat)
    requires b <= |log|
    requires forall i: nat :: IsPut(log, i) && log[i].loc == l ==> (i in keep <==> i < b)
    ensures Get(Survive(base, log, keep), l) == Get(View(base, log[..b]), l)
    decreases |log|
  {
    if b == |log| {
      assert log[..b] == log;
      AgreesAt(base, log, keep, l);
    } else {
      var front := log[..|log| - 1];
      forall i: nat | IsPut(front, i) && front[i].loc == l ensures i in keep <==> i < b {
        assert IsPut(log, i);
      }
      assert log[|log| - 1].Put? && log[|log| - 1].loc == l ==> IsPut(log, |log| - 1);
      JustBefore(base, front, keep, l, b);
      assert front[..b] == log[..b];
    }
  }

  // ------------------------------------------------------ how far an entry goes back

  /** One past the last directory update that a sync covers, among the first `n`. */
  ghost function MetaSynced(log: seq<Entry>, n: nat): (b: nat)
    requires n <= |log|
    ensures b <= n && (b > 0 ==> MetaPut(log, b - 1) && Synced(log, b - 1))
    ensures forall i: nat :: b <= i < n && MetaPut(log, i) ==> !Synced(log, i)
  {
    if n == 0 then 0 else if MetaPut(log, n - 1) && Synced(log, n - 1) then n else MetaSynced(log, n - 1)
  }

  /** The earliest moment whose entry at `l` a power loss may bring back, where syncs
      wait. A journal brings every earlier directory update along with a synced one. */
  ghost function OldestEntry(log: seq<Entry>, journaled: bool, l: Loc): (b: nat)
    ensures b <= |log|
  {
    if journaled then MetaSynced(log, |log|) else LastSync(log, l)
  }

  /** No power loss shows an older one. */
  lemma EntryIsPast(base: Fs, log: seq<Entry>, journaled: bool, fs: Fs, l: Loc) returns (k: nat)
    requires IsMeta(l) && FlushedCrashState(base, log, journaled, fs)
    ensures OldestEntry(log, journaled, l) <= k <= |log| && Get(fs, l) == Get(View(base, log[..k]), l)
  {
    var b := OldestEntry(log, journaled, l);
    var keep: set<nat> :|
      Allowed(log, keep, journaled) && KeepsSynced(log, keep) && fs == Survive(base, log, keep);
    forall i: nat | i < b && IsPut(log, i) && log[i].loc == l ensures i in keep {
      if journaled {
        assert MetaPut(log, i) && MetaPut(log, b - 1) && b - 1 in keep;
      } else {
        assert Covers(log, i, b - 1);
      }
    }
    k := SurvivorIsPast(base, log, keep, l, b);
  }

  /** The writes left when the drive loses the directory updates from `k` on, or without a
      journal those of `l`, and the writes to the run's disk that no sync covers. */
  function GoneBack(log: seq<Entry>, journaled: bool, l: Loc, k: nat, r: RunId): set<nat> {
    set i: nat | i in AllBut(log, RunFile(r, ROOTFS), LastSync(log, RunFile(r, ROOTFS)))
                 && !(k <= i && IsPut(log, i) && (log[i].loc == l || (journaled && MetaPut(log, i))))
  }

  lemma MayGoBack(log: seq<Entry>, journaled: bool, l: Loc, k: nat, r: RunId)
    requires IsMeta(l) && OldestEntry(log, journaled, l) <= k <= |log|
    ensures Allowed(log, GoneBack(log, journaled, l, k, r), journaled) && KeepsSynced(log, GoneBack(log, journaled, l, k, r))
  {
    var keep := GoneBack(log, journaled, l, k, r);
    forall i: nat | Synced(log, i) ensures i in keep {
      var c: nat :| Covers(log, i, c);
      assert MetaPut(log, i) <==> IsMeta(log[i].loc);
    }
    forall i: nat, c: nat, j: nat | Covers(log, i, c) && c < j && IsPut(log, j) && j in keep ensures i in keep {
      assert Synced(log, i);
    }
  }

  /** And some power loss shows that of any moment since, together with no more of the
      run's disk than was synced. */
  lemma SomeCrashGoesBack(base: Fs, log: seq<Entry>, journaled: bool, l: Loc, k: nat, r: RunId) returns (fs: Fs)
    requires IsMeta(l) && OldestEntry(log, journaled, l) <= k <= |log|
    ensures FlushedCrashState(base, log, journaled, fs)
    ensures Get(fs, l) == Get(View(base, log[..k]), l)
    ensures DiskImage(Get(fs, RunFile(r, ROOTFS))) == SyncedImage(base, log, r)
  {
    hide Allowed, KeepsSynced, OldestEntry;
    var keep := GoneBack(log, journaled, l, k, r);
    MayGoBack(log, journaled, l, k, r);
    fs := Survive(base, log, keep);
    JustBefore(base, log, keep, l, k);
    JustBefore(base, log, keep, RunFile(r, ROOTFS), LastSync(log, RunFile(r, ROOTFS)));
  }

  /** An entry whose every write is synced is the same at all those moments. */
  lemma {:induction false} SyncedEntryStays(base: Fs, log: seq<Entry>, journaled: bool, l: Loc, k: nat)
    requires IsMeta(l) && l !in Pending(log) && OldestEntry(log, journaled, l) <= k <= |log|
    ensures Get(View(base, log[..k]), l) == Get(View(base, log), l)
  {
    forall i: nat | k <= i && IsPut(log, i) ensures log[i].loc != l {
      if log[i].loc == l {
        NotPendingIsSynced(log, i);
        assert MetaPut(log, i);
      }
    }
    NotWrittenSince(base, log, l, k);
  }

  lemma {:induction false} NotWrittenSince(base: Fs, log: seq<Entry>, l: Loc, k: nat)
    requires k <= |log| && forall i: nat :: k <= i && IsPut(log, i) ==> log[i].loc != l
    ensures Get(View(base, log[..k]), l) == Get(View(base, log), l)
    decreases |log|
  {
    if k == |log| {
      assert log[..k] == log;
    } else {
      var front := log[..|log| - 1];
      forall i: nat | k <= i && IsPut(front, i) ensures front[i].loc != l { assert IsPut(log, i); }
      assert log[|log| - 1].Put? ==> IsPut(log, |log| - 1);
      NotWrittenSince(base, front, l, k);
      assert front[..k] == log[..k];
    }
  }
}
