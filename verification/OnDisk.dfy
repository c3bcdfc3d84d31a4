/**
  Why no final snapshot and no saved state beside an open run ever has more of the account
  than the run's disk, whatever a power loss takes. Every capture flushes the disk before
  it copies it, and every run is synced before it is named, so by the time a directory
  entry shows the copy, the original is there for good.
 */
module OnDisk {
  import opened Layout
  import opened Journal
  import opened StoreModel
  import opened Disks
  import opened RunDisks
  import opened Instances
  import opened Stores
  import opened CrashTheorems
  import opened Accounts

  /** The run was given a disk. */
  predicate HasRoot(a: Ledger, q: RunId) { q in a.prepared && ROOTFS in a.prepared[q] }

  /** What was synced of a run's disk when the log was `k` entries long. */
  function SyncedAt(d: Disk, k: nat, q: RunId): set<nat>
    requires k <= |d.log|
  {
    if HasRoot(d.ledger, q) then set w | w in SyncedImage(d.base, d.log[..k], q) else {}
  }

  function SavedOf(a: Ledger, latest: Option<GenerationId>): set<nat> {
    if latest.Some? then Writes(PublishedPayload(a, latest.value)) else {}
  }

  /** What the saved state beside the recorded run has of the account was synced on the
      run's disk by then. */
  ghost predicate SavedSynced(d: Disk, k: nat, live: set<nat>, rec: Record)
    requires k <= |d.log|
  {
    rec.phase.Run().Some? ==> live * SavedOf(d.ledger, rec.latest) <= SyncedAt(d, k, rec.phase.Run().value)
  }

  /** So was what the final snapshot has; and if the run has not served, the saved state
      has that too. */
  ghost predicate FinalSynced(d: Disk, k: nat, live: set<nat>, rec: Record, g: GenerationId)
    requires k <= |d.log|
  {
    rec.phase.Run().Some? ==>
      && live * Writes(PublishedPayload(d.ledger, g)) <= SyncedAt(d, k, rec.phase.Run().value)
      && (rec.phase.Running? ==> live * Writes(PublishedPayload(d.ledger, g)) <= SavedOf(d.ledger, rec.latest))
  }

  /** Of the record and the final snapshots that there were at the moment `k`. */
  ghost predicate Covered(d: Disk, live: set<nat>, k: nat)
    requires k <= |d.log|
  {
    var rec := RecordOf(Past(d, k).view);
    rec.Some? && rec.value.phase.Run().Some? ==>
      && SavedSynced(d, k, live, rec.value)
      && forall g :: IsFinal(Past(d, k), rec.value.phase.Run().value, g) ==> FinalSynced(d, k, live, rec.value, g)
  }

  /** Of a record, and every final snapshot ever published of its run. */
  ghost predicate Backs(d: Disk, k: nat, live: set<nat>, rec: Record)
    requires k <= |d.log|
  {
    rec.phase.Run().Some? ==>
      && SavedSynced(d, k, live, rec)
      && forall g :: FinalOf(d.ledger, rec.phase.Run().value, g) ==> FinalSynced(d, k, live, rec, g)
  }

  /** At every moment of the boot, and for what may come. */
  ghost predicate Flushed(d: Disk, live: set<nat>) {
    && (forall k: nat :: k <= |d.log| ==> Covered(d, live, k))
    && (RecordOf(d.view).Some? ==> Backs(d, |d.log|, live, RecordOf(d.view).value))
  }

  // ------------------------------------------------------------------ one moment

  lemma SyncedLater(d: Disk, j: nat, k: nat, q: RunId)
    requires CrashSafe(d) && j <= k <= |d.log|
    ensures SyncedAt(d, j, q) <= SyncedAt(d, k, q)
  {
    hide Safe, LedgerOk, ImagesGrow, SyncedImage;
    SyncedGrows(d.base, d.log, j, k, q);
  }

  lemma SyncedStill(a: Disk, b: Disk, k: nat, q: RunId)
    requires Later(a, b) && k <= |a.log|
    ensures k <= |b.log| && SyncedAt(a, k, q) <= SyncedAt(b, k, q)
  {
    hide SyncedImage;
    assert a.log[..k] == b.log[..k];
  }

  lemma BacksLater(d: Disk, j: nat, k: nat, live: set<nat>, rec: Record)
    requires CrashSafe(d) && j <= k <= |d.log| && Backs(d, j, live, rec)
    ensures Backs(d, k, live, rec)
  {
    hide CrashSafe, SyncedAt, SavedOf, Writes, PublishedPayload, FinalOf;
    if rec.phase.Run().Some? { SyncedLater(d, j, k, rec.phase.Run().value); }
  }

  lemma BacksCovers(d: Disk, j: nat, k: nat, live: set<nat>, rec: Record)
    requires CrashSafe(d) && j <= k <= |d.log| && RecordOf(Past(d, k).view) == Some(rec) && Backs(d, j, live, rec)
    ensures Covered(d, live, k)
  {
    hide CrashSafe, SavedSynced, FinalSynced, FinalOf, RecordOf, IsFinal, View;
    BacksLater(d, j, k, live, rec);
    forall q, g | rec.phase.Run() == Some(q) && IsFinal(Past(d, k), q, g) ensures FinalSynced(d, k, live, rec, g) {
      FinalIsPublished(Past(d, k), q, g);
    }
  }

  /** What the ledger gains later concerns no earlier moment. */
  lemma CoveredStill(a: Disk, b: Disk, live: set<nat>, k: nat)
    requires CrashSafe(a) && a.journaled && Later(a, b) && k <= |a.log| && Covered(a, live, k)
    ensures k <= |b.log| && Covered(b, live, k)
  {
    hide CrashSafe, Grows, RecordOf, Writes, Good, View, PublishedPayload, SyncedImage, OriginOf;
    LaterPast(a, b, k);
    PastIsGood(a, k);
    var rec := RecordOf(Past(a, k).view);
    if rec.Some? && rec.value.phase.Run().Some? {
      SyncedStill(a, b, k, rec.value.phase.Run().value);
      GoodNames(Past(a, k).view, a.ledger);
      if rec.value.latest.Some? { PayloadKept(a.ledger, b.ledger, rec.value.latest.value); }
      forall g | IsFinal(Past(b, k), rec.value.phase.Run().value, g)
        ensures IsFinal(Past(a, k), rec.value.phase.Run().value, g) && PublishedPayload(a.ledger, g) == PublishedPayload(b.ledger, g)
      {
        PayloadKept(a.ledger, b.ledger, g);
      }
    }
  }

  lemma GoodNames(fs: Fs, ledger: Ledger)
    requires Good(fs, ledger, true)
    ensures RecordOf(fs).Some? && RecordOf(fs).value.latest.Some? ==> RecordOf(fs).value.latest.value in ledger.published
    ensures forall g :: IsInPlace(fs, g) ==> g in ledger.published
  {
    hide RunComplete;
  }

  /** Nor does it change what backs the record, unless it is a final snapshot. */
  lemma BacksStill(a: Disk, b: Disk, live: set<nat>, next: nat)
    requires CrashSafe(a) && CrashSafe(b) && Later(a, b) && RecordOf(a.view).Some?
    requires a.ledger.published == b.ledger.published || NoNewFinals(a.ledger, b.ledger, next)
    requires Backs(a, |a.log|, live, RecordOf(a.view).value)
    ensures |a.log| <= |b.log| && Backs(b, |a.log|, live, RecordOf(a.view).value)
  {
    hide CrashSafe, Grows, RecordOf, Writes, View, PublishedPayload, SyncedImage, OriginOf;
    LaterPast(a, b, |a.log|);
    var rec := RecordOf(a.view).value;
    if rec.phase.Run().Some? { SyncedStill(a, b, |a.log|, rec.phase.Run().value); }
    if rec.latest.Some? {
      LatestIsOld(a, rec.latest.value);
      PayloadKept(a.ledger, b.ledger, rec.latest.value);
    }
    forall q, g | FinalOf(b.ledger, q, g) ensures FinalOf(a.ledger, q, g) && PublishedPayload(a.ledger, g) == PublishedPayload(b.ledger, g) {
      PayloadKept(a.ledger, b.ledger, g);
    }
  }

  // ---------------------------------------------------------------------- steps

  /** The moments so far stay covered, and those to come are by what backs their record. */
  lemma CoverOn(a: Disk, b: Disk, live: set<nat>)
    requires CrashSafe(a) && CrashSafe(b) && a.journaled && Later(a, b) && Flushed(a, live)
    requires forall k: nat :: |a.log| <= k <= |b.log| && RecordOf(Past(b, k).view).Some? ==>
               Backs(b, k, live, RecordOf(Past(b, k).view).value)
    ensures Flushed(b, live)
  {
    hide CrashSafe, Later, RecordOf, Backs, Covered, View;
    forall k: nat | k <= |b.log| ensures Covered(b, live, k) {
      if k < |a.log| {
        CoveredStill(a, b, live, k);
      } else if RecordOf(Past(b, k).view).Some? {
        BacksCovers(b, k, k, live, RecordOf(Past(b, k).view).value);
      } else {
        NoneCovers(b, live, k);
      }
    }
    WholePast(a, b);
  }

  lemma NoneCovers(d: Disk, live: set<nat>, k: nat)
    requires k <= |d.log| && RecordOf(Past(d, k).view).None?
    ensures Covered(d, live, k)
  {
    hide RecordOf;
  }

  lemma WholePast(a: Disk, b: Disk)
    requires CrashSafe(b) && Later(a, b)
    ensures |a.log| <= |b.log| && Past(b, |b.log|).view == b.view
  {
    hide Safe, LedgerOk, ImagesGrow, View, Grows;
    assert b.log[..|b.log|] == b.log;
  }

  lemma StoppedBacks(d: Disk, k: nat, live: set<nat>, rec: Record)
    requires k <= |d.log| && rec.phase == Stopped
    ensures Backs(d, k, live, rec)
  {
  }

  /** Steps that keep the record or stop the instance, and publish no final snapshot. */
  lemma FlushKept(a: Disk, b: Disk, live: set<nat>, next: nat)
    requires CrashSafe(a) && CrashSafe(b) && a.journaled && Later(a, b) && Flushed(a, live) && OnlyStops(a, b)
    requires a.ledger.published == b.ledger.published || NoNewFinals(a.ledger, b.ledger, next)
    ensures Flushed(b, live)
  {
    hide CrashSafe, Later, RecordOf, Backs, Covered, View, NoNewFinals;
    if RecordOf(a.view).Some? { BacksStill(a, b, live, next); }
    forall k: nat | |a.log| <= k <= |b.log| && RecordOf(Past(b, k).view).Some?
      ensures Backs(b, k, live, RecordOf(Past(b, k).view).value)
    {
      var rec := RecordOf(Past(b, k).view).value;
      if rec.phase == Stopped {
        StoppedBacks(b, k, live, rec);
      } else {
        BacksLater(b, |a.log|, k, live, rec);
      }
    }
    CoverOn(a, b, live);
  }

  /** Steps with one commit, to a record that is backed from the start. */
  lemma FlushTo(a: Disk, b: Disk, live: set<nat>)
    requires CrashSafe(a) && CrashSafe(b) && a.journaled && Later(a, b) && Flushed(a, live)
    requires CommitCount(b.log) <= CommitCount(a.log) + 1 && |a.log| <= |b.log|
    requires RecordOf(a.view).Some? && Backs(b, |a.log|, live, RecordOf(a.view).value)
    requires RecordOf(b.view).Some? && Backs(b, |a.log|, live, RecordOf(b.view).value)
    ensures Flushed(b, live)
  {
    hide CrashSafe, Later, RecordOf, Backs, Covered, View, CommitCount, SameRefs;
    forall k: nat | |a.log| <= k <= |b.log| && RecordOf(Past(b, k).view).Some?
      ensures Backs(b, k, live, RecordOf(Past(b, k).view).value)
    {
      MomentIsBeforeOrAfter(a, b, k);
      BacksLater(b, |a.log|, k, live, RecordOf(Past(b, k).view).value);
    }
    CoverOn(a, b, live);
  }

  lemma NothingToFlush(d: Disk)
    ensures Flushed(d, {})
  {
    hide RecordOf, Writes, PublishedPayload, SyncedAt, SavedOf, IsFinal, FinalOf, View;
    forall k: nat | k <= |d.log| ensures Covered(d, {}, k) {}
  }

  lemma FlushFewer(d: Disk, live: set<nat>, fewer: set<nat>)
    requires Flushed(d, live) && fewer <= live
    ensures Flushed(d, fewer)
  {
    hide RecordOf, Writes, PublishedPayload, SyncedAt, SavedOf, IsFinal, FinalOf, View;
    forall k: nat | k <= |d.log| ensures Covered(d, fewer, k) { assert Covered(d, live, k); }
  }

  /** A write that no generation has yet. */
  lemma FlushMore(d: Disk, live: set<nat>, w: nat)
    requires Flushed(d, live) && Booked(d, live, w)
    ensures Flushed(d, live + {w})
  {
    hide RecordOf, SyncedAt, IsFinal, FinalOf, View, PublishedPayload, Writes, FinalsHold, RunRecords, Held;
    forall g ensures w !in Writes(PublishedPayload(d.ledger, g)) {
      assert AllBelow(Writes(PublishedPayload(d.ledger, g)), w);
    }
    forall k: nat | k <= |d.log| ensures Covered(d, live + {w}, k) { assert Covered(d, live, k); }
  }

  /** Everything on the account is synced on the open run's disk, and in the saved state if
      the run has not served. */
  ghost predicate AllOnSynced(d: Disk, live: set<nat>) {
    && RecordOf(d.view).Some?
    && var rec := RecordOf(d.view).value;
       rec.phase.Run().Some? ==>
         live <= SyncedAt(d, |d.log|, rec.phase.Run().value) && (rec.phase.Running? ==> live <= SavedOf(d.ledger, rec.latest))
  }

  /** From then on the run may have any snapshot of itself, final or not. */
  lemma FlushCaptured(a: Disk, b: Disk, live: set<nat>)
    requires CrashSafe(a) && CrashSafe(b) && a.journaled && Later(a, b) && Flushed(a, live) && AllOnSynced(a, live)
    requires CommitCount(b.log) == CommitCount(a.log) && RecordOf(b.view) == RecordOf(a.view)
    ensures Flushed(b, live)
  {
    hide CrashSafe, Grows, RecordOf, View, CommitCount, Covered, PublishedPayload, Writes, SyncedImage, FinalOf;
    var rec := RecordOf(a.view).value;
    LaterPast(a, b, |a.log|);
    if rec.phase.Run().Some? { SyncedStill(a, b, |a.log|, rec.phase.Run().value); }
    if rec.latest.Some? {
      LatestIsOld(a, rec.latest.value);
      PayloadKept(a.ledger, b.ledger, rec.latest.value);
    }
    assert Backs(b, |a.log|, live, rec);
    FlushTo(a, b, live);
  }

  /** And that may become the saved state beside it. */
  lemma FlushAdvanced(a: Disk, b: Disk, live: set<nat>, run: RunId, g: GenerationId)
    requires CrashSafe(a) && CrashSafe(b) && a.journaled && Later(a, b) && Flushed(a, live) && AllOnSynced(a, live)
    requires CommitCount(b.log) <= CommitCount(a.log) + 1 && a.ledger.published == b.ledger.published
    requires live <= Writes(PublishedPayload(a.ledger, g)) && RecordOf(a.view).value.phase.Run() == Some(run)
    requires RecordOf(b.view) == RecordOf(a.view) || RecordOf(b.view) == Some(Record(Some(g), RecordOf(a.view).value.phase))
    ensures Flushed(b, live)
  {
    hide CrashSafe, Grows, RecordOf, View, CommitCount, Covered, Writes, SyncedImage, FinalOf, Payload;
    LaterPast(a, b, |a.log|);
    SyncedStill(a, b, |a.log|, run);
    assert Backs(b, |a.log|, live, RecordOf(a.view).value);
    assert Backs(b, |a.log|, live, RecordOf(b.view).value);
    FlushTo(a, b, live);
  }

  /** The run is marked dirty, which asks for less. */
  lemma FlushDirtied(a: Disk, b: Disk, live: set<nat>, run: RunId)
    requires CrashSafe(a) && CrashSafe(b) && a.journaled && Later(a, b) && Flushed(a, live)
    requires CommitCount(b.log) <= CommitCount(a.log) + 1 && a.ledger.published == b.ledger.published
    requires RecordOf(a.view).Some? && RecordOf(a.view).value.phase.Run() == Some(run)
    requires RecordOf(b.view) == RecordOf(a.view) || RecordOf(b.view) == Some(Record(RecordOf(a.view).value.latest, Dirty(run)))
    ensures Flushed(b, live)
  {
    hide CrashSafe, Later, RecordOf, View, CommitCount, Covered, Writes, SyncedAt, SavedOf, PublishedPayload, FinalOf;
    BacksStill(a, b, live, 0);
    assert Backs(b, |a.log|, live, RecordOf(b.view).value);
    FlushTo(a, b, live);
  }

  /** A run that was synced before it was named, on a base that has the account. */
  lemma FlushBegan(a: Disk, b: Disk, live: set<nat>, image: seq<nat>)
    requires CrashSafe(a) && CrashSafe(b) && a.journaled && Later(a, b) && Flushed(a, live)
    requires RecordOf(a.view).Some? && RecordOf(a.view).value.phase == Stopped
    requires RecordOf(b.view) == RecordOf(a.view)
             || RecordOf(b.view) == Some(Record(RecordOf(a.view).value.latest, Running(a.ledger.nextRun)))
    requires NamedOnceSynced(a, b, a.ledger.nextRun, image) && a.ledger.published == b.ledger.published
    requires RecordOf(b.view) != RecordOf(a.view) ==> forall w :: w in live ==> w in image && HasRoot(b.ledger, a.ledger.nextRun)
    ensures Flushed(b, live)
  {
    hide CrashSafe, Later, RecordOf, View, CommitCount, Covered, Writes, SavedOf, PublishedPayload, SyncedImage, FinalOf;
    SamePublished(a.ledger, b.ledger);
    FreshRunHasNoFinals(a);
    forall k: nat | |a.log| <= k <= |b.log| && RecordOf(Past(b, k).view).Some?
      ensures Backs(b, k, live, RecordOf(Past(b, k).view).value)
    {
      var rec := RecordOf(Past(b, k).view).value;
      if rec.phase == Stopped { StoppedBacks(b, k, live, rec); }
    }
    CoverOn(a, b, live);
  }

  // -------------------------------------------------------------------- power losses

  /** The write can be seen, and is on the disk of any open run. */
  ghost predicate OnItsDisk(d: Disk, w: nat) {
    && State(d).Some? && Visible(State(d).value, w)
    && (State(d).value.open.Some? ==> w in Writes(State(d).value.open.value.files))
  }

  lemma KeptIsOnDisk(d: Disk, now: Disk, live: set<nat>, k: nat, w: nat)
    requires k <= |d.log| && Covered(d, live, k) && now.ledger == d.ledger
    requires RecordOf(now.view) == RecordOf(Past(d, k).view) && SameFinals(now, Past(d, k))
    requires forall r :: SyncedImage(d.base, d.log[..k], r) <= ImageOn(now.view, r)
    requires w in live && Kept(now, w)
    ensures OnItsDisk(now, w)
  {
    hide RecordOf, Payload, View, SyncedImage, Checkpoints, IsFinal, ImageOn;
    PhaseOfState(now);
    if RecordOf(now.view).Some? && RecordOf(now.view).value.phase.Run().Some? {
      var rec := RecordOf(now.view).value;
      SyncedIsOn(d, now, k, rec.phase.Run().value, w);
      if g :| RollsTo(now, g) {
        OneRoll(now, g, w);
        assert IsFinal(Past(d, k), rec.phase.Run().value, g);
        assert FinalSynced(d, k, live, rec, g) && w in live * Writes(PublishedPayload(d.ledger, g));
        assert w in SyncedAt(d, k, rec.phase.Run().value);
      }
    }
  }

  lemma SyncedIsOn(d: Disk, now: Disk, k: nat, q: RunId, w: nat)
    requires k <= |d.log| && now.ledger == d.ledger && SyncedImage(d.base, d.log[..k], q) <= ImageOn(now.view, q)
    ensures w in SyncedAt(d, k, q) ==> w in Writes(RunFiles(now, q))
  {
    hide SyncedImage;
  }

  /** In every crash state whose record names a run, what recovery keeps of the account is
      on that run's disk; so a final snapshot in place never has anything that cannot be
      seen without it. */
  lemma AccountIsOnDisk(d: Disk, survivor: Fs, live: set<nat>)
    requires CrashSafe(d) && d.journaled && Flushed(d, live) && CrashState(d.base, d.log, d.journaled, survivor)
    ensures var now := Rebooted(d, survivor);
            SafeFor(State(now), KeptOf(now, live)) && forall w :: w in live && Kept(now, w) ==> OnItsDisk(now, w)
  {
    hide CrashSafe, CrashState, RecordOf, Writes, PublishedPayload, View, SyncedImage, Checkpoints, Covered, RunFiles,
         IsFinal, Kept, Backs, SameFinals, ImageOn, State;
    var k := PowerLossShowsOneMoment(d, survivor);
    var now := Rebooted(d, survivor);
    assert Covered(d, live, k);
    forall w | w in live && Kept(now, w) ensures OnItsDisk(now, w) {
      KeptIsOnDisk(d, now, live, k, w);
    }
  }

  /** At the start of a boot everything is synced. */
  lemma FlushRebooted(d: Disk, live: set<nat>)
    requires d.log == [] && d.view == d.base && SafeFor(State(d), live)
    ensures Flushed(d, live)
  {
    hide RecordOf, Payload, Checkpoints, IsFinal, FinalOf;
    assert Past(d, 0).view == d.view;
    if RecordOf(d.view).Some? {
      BootBacks(d, live);
      forall k: nat | k <= |d.log| ensures Covered(d, live, k) { BootCovers(d, live); }
    } else {
      NoneCovers(d, live, 0);
    }
  }

  lemma BootCovers(d: Disk, live: set<nat>)
    requires d.log == [] && d.view == d.base && RecordOf(d.view).Some? && Backs(d, 0, live, RecordOf(d.view).value)
    ensures Covered(d, live, 0)
  {
    hide RecordOf, SavedSynced, FinalSynced, FinalOf, IsFinal;
    forall q, g | IsFinal(Past(d, 0), q, g) ensures FinalOf(d.ledger, q, g) { FinalIsPublished(Past(d, 0), q, g); }
  }

  lemma BootBacks(d: Disk, live: set<nat>)
    requires d.log == [] && d.view == d.base && SafeFor(State(d), live) && RecordOf(d.view).Some?
    ensures Backs(d, 0, live, RecordOf(d.view).value)
  {
    hide RecordOf, Payload, Checkpoints, FinalOf;
    PhaseOfState(d);
    var rec := RecordOf(d.view).value;
    if rec.phase.Run().Some? {
      assert live <= SyncedAt(d, 0, rec.phase.Run().value);
      if rec.phase.Running? { SavedWhenNotDirty(State(d).value, live); }
    }
  }

  // ----------------------------------------------------------------- after a flush

  /** The run's disk is synced as it is, and has the account. */
  lemma FlushedAll(d: Disk, live: set<nat>, run: RunId)
    requires CrashSafe(d) && SafeFor(State(d), live) && HasDisk(State(d))
    requires RecordOf(d.view).Some? && RecordOf(d.view).value.phase.Run() == Some(run)
    requires SyncedImage(d.base, d.log, run) == ImageOn(d.view, run)
    ensures AllOnSynced(d, live)
  {
    hide CrashSafe, RecordOf, Payload, Checkpoints, SyncedImage;
    assert d.log[..|d.log|] == d.log;
    PhaseOfState(d);
    if RecordOf(d.view).value.phase.Running? { SavedWhenNotDirty(State(d).value, live); }
  }

  lemma StaysOnSynced(a: Disk, b: Disk, live: set<nat>)
    requires CrashSafe(a) && CrashSafe(b) && Later(a, b) && AllOnSynced(a, live) && RecordOf(b.view) == RecordOf(a.view)
    ensures AllOnSynced(b, live)
  {
    hide CrashSafe, Grows, RecordOf, Writes, PublishedPayload, SyncedImage, View;
    LaterPast(a, b, |a.log|);
    var rec := RecordOf(a.view).value;
    if rec.phase.Run().Some? { SyncedStill(a, b, |a.log|, rec.phase.Run().value); }
    if rec.latest.Some? {
      LatestIsOld(a, rec.latest.value);
      PayloadKept(a.ledger, b.ledger, rec.latest.value);
    }
    if rec.phase.Run().Some? { SyncedLater(b, |a.log|, |b.log|, rec.phase.Run().value); }
  }

  // -------------------------------------------------------------- the machine's steps

  /** Steps that keep the record or stop the instance, change no run's disk and publish no
      final snapshot keep all that the account relies on. */
  lemma StepKept(a: Disk, b: Disk, live: set<nat>, next: nat)
    requires CrashSafe(a) && CrashSafe(b) && a.journaled && Later(a, b) && SameRuns(a, b)
    requires Booked(a, live, next) && Flushed(a, live)
    requires a.ledger.published == b.ledger.published || NoNewFinals(a.ledger, b.ledger, next)
    requires CommitCount(b.log) <= CommitCount(a.log) + 1
    requires RecordOf(b.view) == RecordOf(a.view) || (State(b).Some? && State(b).value.open.None?)
    ensures Booked(b, live, next) && Flushed(b, live)
  {
    hide CrashSafe, Later, SameRuns, Booked, Flushed, NoNewFinals, CommitCount, RecordOf, State, OnlyStops;
    BookKept(a, b, live, next);
    PhaseOfState(b);
    StopsOnce(a, b);
    FlushKept(a, b, live, next);
  }

  lemma FlushStarted(a: Disk, b: Disk, live: set<nat>, from: Option<GenerationId>)
    requires CrashSafe(a) && CrashSafe(b) && a.journaled && Later(a, b) && Flushed(a, live)
    requires RecordOf(a.view).Some? && RecordOf(a.view).value.phase == Stopped && a.ledger.published == b.ledger.published
    requires RecordOf(b.view) == RecordOf(a.view) || exists run :: Began(a, b, from, run)
    requires NamedOnceSynced(a, b, a.ledger.nextRun, FilesImage(BaseFiles(a, from)))
    requires RecordOf(b.view) != RecordOf(a.view) ==> live <= Writes(BaseFiles(a, from))
    ensures Flushed(b, live)
  {
    hide CrashSafe, Later, Flushed, RecordOf, NamedOnceSynced, Began, FilesImage, Writes, BaseFiles, HasRoot;
    if RecordOf(b.view) != RecordOf(a.view) {
      var run :| Began(a, b, from, run);
      forall w | w in live ensures w in FilesImage(BaseFiles(a, from)) && HasRoot(b.ledger, a.ledger.nextRun) {
        BaseIsOn(a, b, from, run, w);
      }
      BegunRecord(a, b, from, run);
    }
    FlushBegan(a, b, live, FilesImage(BaseFiles(a, from)));
  }

  lemma BaseIsOn(a: Disk, b: Disk, from: Option<GenerationId>, run: RunId, w: nat)
    requires Began(a, b, from, run) && w in Writes(BaseFiles(a, from))
    ensures w in FilesImage(BaseFiles(a, from)) && HasRoot(b.ledger, a.ledger.nextRun)
  {
    hide RecordOf, Checkpoints, Payload, BaseFiles;
  }

  lemma BegunRecord(a: Disk, b: Disk, from: Option<GenerationId>, run: RunId)
    requires Began(a, b, from, run)
    ensures RecordOf(b.view) == Some(Record(RecordOf(a.view).value.latest, Running(a.ledger.nextRun)))
  {
    hide RecordOf, State;
  }
}
