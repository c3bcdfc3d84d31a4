/**
  Which acknowledged guest writes outlive a power loss, on a drive whose syncs wait
  until the data is durable. Recovery decides: where an interrupted run's final snapshot
  came through it rolls forward to that, so what counts is whether every power loss, none
  or only some leave the snapshot in place.
 */
module Durability {
  import opened Layout
  import opened Journal
  import opened StoreModel
  import opened Disks
  import opened RunDisks
  import opened Instances
  import opened CrashTheorems
  import opened Accounts

  /** Whatever the drive loses, recovery has the write. */
  ghost predicate SurvivesEvery(d: Disk, w: nat) {
    forall survivor :: FlushedCrashState(d.base, d.log, d.journaled, survivor) ==> Kept(Rebooted(d, survivor), w)
  }

  /** A moment whose entry of `generations/<g>` a power loss may bring back. */
  ghost predicate MayGoBackTo(d: Disk, g: GenerationId, k: nat) {
    OldestEntry(d.log, d.journaled, GenDir(g)) <= k <= |d.log|
  }

  ghost predicate MayBeThere(d: Disk, g: GenerationId) {
    exists k: nat :: MayGoBackTo(d, g, k) && IsInPlace(Past(d, k).view, g)
  }

  ghost predicate MayBeGone(d: Disk, g: GenerationId) {
    exists k: nat :: MayGoBackTo(d, g, k) && !IsInPlace(Past(d, k).view, g)
  }

  predicate InSaved(d: Disk, w: nat) {
    && RecordOf(d.view).Some? && RecordOf(d.view).value.latest.Some?
    && w in Writes(PublishedPayload(d.ledger, RecordOf(d.view).value.latest.value))
  }

  /** On the dirty run's disk when that file was last synced. */
  predicate InSynced(d: Disk, w: nat) {
    && RecordOf(d.view).Some? && RecordOf(d.view).value.phase.Dirty?
    && var run := RecordOf(d.view).value.phase.run;
       run in d.ledger.prepared && ROOTFS in d.ledger.prepared[run] && w in SyncedImage(d.base, d.log, run)
  }

  /** In any final snapshot of the open run that may come through; and if none need come
      through, in the saved state or on the synced disk. */
  ghost predicate ForGood(d: Disk, w: nat) {
    && RecordOf(d.view).Some?
    && var q := RecordOf(d.view).value.phase.Run();
       && (forall g :: q.Some? && FinalOf(d.ledger, q.value, g) && MayBeThere(d, g) ==> w in Writes(PublishedPayload(d.ledger, g)))
       && ((forall g :: q.Some? && FinalOf(d.ledger, q.value, g) ==> MayBeGone(d, g)) ==> InSaved(d, w) || InSynced(d, w))
  }

  /** Without a journal a collected snapshot may come back without its files. */
  ghost predicate FinalsReadable(d: Disk) {
    d.journaled ||
    forall q: RunId, g: GenerationId ::
      RecordOf(d.view).Some? && RecordOf(d.view).value.phase.Run() == Some(q) && FinalOf(d.ledger, q, g) ==>
        Complete(d.view, d.ledger, g) && GenDurable(d, g)
  }

  /** With the record synced, a write outlives every power loss if and only if it is
      there for good. */
  lemma SurvivesIff(d: Disk, w: nat)
    requires CrashSafe(d) && RecordDurable(d) && OneFinal(d.ledger) && FinalsReadable(d)
    ensures SurvivesEvery(d, w) <==> ForGood(d, w)
  {
    hide CrashSafe, RecordDurable, FlushedCrashState, Kept, ForGood, OneFinal, FinalsReadable;
    if ForGood(d, w) {
      forall survivor | FlushedCrashState(d.base, d.log, d.journaled, survivor) ensures Kept(Rebooted(d, survivor), w) {
        ForGoodIsKept(d, survivor, w);
      }
    }
    if SurvivesEvery(d, w) { SurvivesIsForGood(d, w); }
  }

  lemma ForGoodIsKept(d: Disk, survivor: Fs, w: nat)
    requires CrashSafe(d) && RecordDurable(d) && OneFinal(d.ledger) && ForGood(d, w)
    requires FlushedCrashState(d.base, d.log, d.journaled, survivor)
    ensures Kept(Rebooted(d, survivor), w)
  {
    hide CrashSafe, RecordDurable, FlushedCrashState, Checkpoints, Payload, Writes, MayBeThere, MayBeGone, InSynced,
         OneFinal, OriginOf;
    var now := Rebooted(d, survivor);
    RecordSurvives(d, survivor);
    if g :| RollsTo(now, g) {
      EntryComesFrom(d, survivor, g);
      FinalIsPublished(now, RecordOf(d.view).value.phase.Run().value, g);
      OneRoll(now, g, w);
    } else {
      var q := RecordOf(d.view).value.phase.Run();
      forall g | q.Some? && FinalOf(d.ledger, q.value, g) ensures MayBeGone(d, g) {
        EntryComesFrom(d, survivor, g);
        if IsFinal(now, q.value, g) { FinalRolls(now, q.value, g); }
      }
      if InSynced(d, w) { SyncedIsThere(d, survivor, w); }
    }
  }

  lemma EntryComesFrom(d: Disk, survivor: Fs, g: GenerationId)
    requires FlushedCrashState(d.base, d.log, d.journaled, survivor)
    ensures if IsInPlace(survivor, g) then MayBeThere(d, g) else MayBeGone(d, g)
  {
    hide FlushedCrashState, OldestEntry, View;
    var k := EntryIsPast(d.base, d.log, d.journaled, survivor, GenDir(g));
    assert MayGoBackTo(d, g, k);
  }

  lemma SyncedIsThere(d: Disk, survivor: Fs, w: nat)
    requires CrashSafe(d) && RecordDurable(d) && FlushedCrashState(d.base, d.log, d.journaled, survivor) && InSynced(d, w)
    ensures State(Rebooted(d, survivor)).Some? && Visible(State(Rebooted(d, survivor)).value, w)
  {
    hide FlushedCrashState, Safe, LedgerOk, SyncedImage, ImagesGrow, RecordDurable, RecordOf, Checkpoints, Current;
    RecordSurvives(d, survivor);
    FlushedShowsSynced(d.base, d.log, d.journaled, survivor, RecordOf(d.view).value.phase.run);
  }

  lemma SurvivesIsForGood(d: Disk, w: nat)
    requires CrashSafe(d) && RecordDurable(d) && OneFinal(d.ledger) && SurvivesEvery(d, w)
    ensures ForGood(d, w)
  {
    hide CrashSafe, RecordDurable, FlushedCrashState, Checkpoints, Payload, Writes, OneFinal, Kept, MayBeThere,
         MayBeGone, FinalOf;
    var same := SomeCrashShowsJustSynced(d.base, d.log, d.journaled, 0);
    RecordSurvives(d, same);
    KeptNeedsRecord(Rebooted(d, same), w);
    var q := RecordOf(d.view).value.phase.Run();
    forall g | q.Some? && FinalOf(d.ledger, q.value, g) && MayBeThere(d, g) ensures w in Writes(PublishedPayload(d.ledger, g)) {
      WithFinal(d, q.value, g, w);
    }
    if forall g :: q.Some? && FinalOf(d.ledger, q.value, g) ==> MayBeGone(d, g) {
      if g :| q.Some? && FinalOf(d.ledger, q.value, g) {
        WithoutFinal(d, q.value, g, w);
      } else {
        NoFinalAtAll(d, w);
      }
    }
  }

  lemma KeptNeedsRecord(d: Disk, w: nat)
    ensures Kept(d, w) ==> RecordOf(d.view).Some?
  {
    hide Writes, PublishedPayload;
  }

  lemma WithFinal(d: Disk, q: RunId, g: GenerationId, w: nat)
    requires CrashSafe(d) && RecordDurable(d) && OneFinal(d.ledger) && SurvivesEvery(d, w) && MayBeThere(d, g)
    requires RecordOf(d.view).Some? && RecordOf(d.view).value.phase.Run() == Some(q) && FinalOf(d.ledger, q, g)
    ensures w in Writes(PublishedPayload(d.ledger, g))
  {
    hide CrashSafe, RecordDurable, FlushedCrashState, Kept, OneFinal, Writes, PublishedPayload, View, OldestEntry,
         RecordOf;
    var k: nat :| MayGoBackTo(d, g, k) && IsInPlace(Past(d, k).view, g);
    var survivor := SomeCrashGoesBack(d.base, d.log, d.journaled, GenDir(g), k, q);
    RecordSurvives(d, survivor);
    FinalRolls(Rebooted(d, survivor), q, g);
    OneRoll(Rebooted(d, survivor), g, w);
  }

  /** The survivor has no final snapshot and no more of the disk than was synced. */
  lemma BareSurvivor(d: Disk, survivor: Fs, w: nat)
    requires RecordOf(survivor) == RecordOf(d.view) && RecordOf(d.view).Some? && Kept(Rebooted(d, survivor), w)
    requires forall g :: !RollsTo(Rebooted(d, survivor), g)
    requires RecordOf(d.view).value.phase.Dirty? ==>
               ImageOn(survivor, RecordOf(d.view).value.phase.run) == SyncedImage(d.base, d.log, RecordOf(d.view).value.phase.run)
    ensures InSaved(d, w) || InSynced(d, w)
  {
    hide RecordOf, Checkpoints, Payload, SyncedImage, RollsTo;
  }

  lemma WithoutFinal(d: Disk, q: RunId, g: GenerationId, w: nat)
    requires CrashSafe(d) && RecordDurable(d) && OneFinal(d.ledger) && SurvivesEvery(d, w) && MayBeGone(d, g)
    requires RecordOf(d.view).Some? && RecordOf(d.view).value.phase.Run() == Some(q) && FinalOf(d.ledger, q, g)
    ensures InSaved(d, w) || InSynced(d, w)
  {
    hide CrashSafe, RecordDurable, FlushedCrashState, Kept, Writes, PublishedPayload, View, OldestEntry, RecordOf,
         InSaved, InSynced, SyncedImage;
    var k: nat :| MayGoBackTo(d, g, k) && !IsInPlace(Past(d, k).view, g);
    var survivor := SomeCrashGoesBack(d.base, d.log, d.journaled, GenDir(g), k, q);
    RecordSurvives(d, survivor);
    forall h ensures !IsFinal(Rebooted(d, survivor), q, h) { FinalIsPublished(Rebooted(d, survivor), q, h); }
    BareSurvivor(d, survivor, w);
  }

  lemma NoFinalAtAll(d: Disk, w: nat)
    requires CrashSafe(d) && RecordDurable(d) && SurvivesEvery(d, w) && RecordOf(d.view).Some?
    requires forall g :: RecordOf(d.view).value.phase.Run().Some? ==> !FinalOf(d.ledger, RecordOf(d.view).value.phase.Run().value, g)
    ensures InSaved(d, w) || InSynced(d, w)
  {
    hide CrashSafe, RecordDurable, FlushedCrashState, Kept, Writes, PublishedPayload, View, RecordOf, InSaved, InSynced,
         SyncedImage;
    var run := if RecordOf(d.view).value.phase.Dirty? then RecordOf(d.view).value.phase.run else 0;
    var survivor := SomeCrashShowsJustSynced(d.base, d.log, d.journaled, run);
    RecordSurvives(d, survivor);
    forall q, h | RecordOf(d.view).value.phase.Run() == Some(q) ensures !IsFinal(Rebooted(d, survivor), q, h) {
      FinalIsPublished(Rebooted(d, survivor), q, h);
    }
    BareSurvivor(d, survivor, w);
  }

  // ------------------------------------------------------------------ what that comes to

  /** Its entry synced, a final snapshot in place decides alone. */
  lemma FinalDecides(d: Disk, q: RunId, g: GenerationId, w: nat)
    requires CrashSafe(d) && RecordDurable(d) && OneFinal(d.ledger) && FinalsReadable(d)
    requires RecordOf(d.view).Some? && RecordOf(d.view).value.phase.Run() == Some(q)
    requires IsFinal(d, q, g) && GenDir(g) !in Pending(d.log)
    ensures SurvivesEvery(d, w) <==> w in Writes(PublishedPayload(d.ledger, g))
  {
    hide CrashSafe, RecordDurable, SurvivesEvery, Writes, PublishedPayload, InSaved, InSynced, RecordOf, FinalsReadable;
    SurvivesIff(d, w);
    SyncedFinal(d, g);
    assert FinalOf(d.ledger, q, g);
  }

  lemma SyncedFinal(d: Disk, g: GenerationId)
    requires CrashSafe(d) && GenDir(g) !in Pending(d.log)
    ensures MayBeThere(d, g) <==> IsInPlace(d.view, g)
    ensures MayBeGone(d, g) <==> !IsInPlace(d.view, g)
  {
    hide Safe, LedgerOk, ImagesGrow, View, OldestEntry, Pending;
    assert d.log[..|d.log|] == d.log && MayGoBackTo(d, g, |d.log|);
    assert IsInPlace(Past(d, |d.log|).view, g) <==> IsInPlace(d.view, g);
    forall k: nat | MayGoBackTo(d, g, k) ensures IsInPlace(Past(d, k).view, g) <==> IsInPlace(d.view, g) {
      SyncedEntryStays(d.base, d.log, d.journaled, GenDir(g), k);
    }
  }

  /** In place, but with an entry that a power loss may take back: the write must be in
      the snapshot, and without it too. */
  lemma UnsyncedFinalNeedsBoth(d: Disk, q: RunId, g: GenerationId, w: nat)
    requires CrashSafe(d) && RecordDurable(d) && OneFinal(d.ledger) && FinalsReadable(d)
    requires RecordOf(d.view).Some? && RecordOf(d.view).value.phase.Run() == Some(q)
    requires IsFinal(d, q, g) && MayBeGone(d, g)
    ensures SurvivesEvery(d, w) <==> w in Writes(PublishedPayload(d.ledger, g)) && (InSaved(d, w) || InSynced(d, w))
  {
    hide Safe, LedgerOk, ImagesGrow, View, OldestEntry, RecordDurable, SurvivesEvery, Writes, PublishedPayload, InSaved,
         InSynced, RecordOf, FinalsReadable;
    SurvivesIff(d, w);
    assert FinalOf(d.ledger, q, g);
    assert d.log[..|d.log|] == d.log && MayGoBackTo(d, g, |d.log|);
    assert IsInPlace(Past(d, |d.log|).view, g);
  }

  /** The open run has no final snapshot: none was published, or it is gone for good. */
  ghost predicate NoFinal(d: Disk) {
    forall q: RunId, g: GenerationId ::
      RecordOf(d.view).Some? && RecordOf(d.view).value.phase.Run() == Some(q) && FinalOf(d.ledger, q, g) ==>
        !IsInPlace(d.view, g) && GenDir(g) !in Pending(d.log)
  }

  /** Without one, the saved state and the synced disk decide; stopped, the saved state. */
  lemma NoFinalDecides(d: Disk, w: nat)
    requires CrashSafe(d) && RecordDurable(d) && OneFinal(d.ledger) && FinalsReadable(d) && NoFinal(d)
    ensures SurvivesEvery(d, w) <==> InSaved(d, w) || InSynced(d, w)
    ensures RecordOf(d.view).Some? && RecordOf(d.view).value.phase == Stopped ==> (SurvivesEvery(d, w) <==> InSaved(d, w))
  {
    hide CrashSafe, RecordDurable, SurvivesEvery, Writes, PublishedPayload, RecordOf, OneFinal, FinalsReadable,
         MayBeThere, MayBeGone, Pending, IsInPlace, FinalOf, SyncedImage;
    SurvivesIff(d, w);
    forall q: RunId, g: GenerationId |
      RecordOf(d.view).Some? && RecordOf(d.view).value.phase.Run() == Some(q) && FinalOf(d.ledger, q, g)
      ensures MayBeGone(d, g) && !MayBeThere(d, g)
    {
      SyncedFinal(d, g);
    }
  }

  /** The account does not hang on anything unsynced: the final snapshot's entry is
      synced, or the disk of a dirty run is. */
  ghost predicate AccountSynced(d: Disk) {
    RecordOf(d.view).Some? && RecordOf(d.view).value.phase.Run().Some? ==>
      var q := RecordOf(d.view).value.phase.Run().value;
      || (exists g :: IsFinal(d, q, g) && GenDir(g) !in Pending(d.log))
      || (RecordOf(d.view).value.phase.Dirty? ==> SyncedImage(d.base, d.log, q) == ImageOn(d.view, q))
  }

  /** So the whole account outlives every power loss after a stop that returned, after a
      flush by the guest, and already once the publish of the final snapshot returned. */
  lemma AccountSurvives(d: Disk, live: set<nat>, next: nat)
    requires CrashSafe(d) && FinalsReadable(d) && RecordDurable(d) && SafeFor(State(d), live) && Booked(d, live, next)
    requires AccountSynced(d)
    ensures forall w :: w in live ==> SurvivesEvery(d, w)
  {
    hide CrashSafe, RecordDurable, SurvivesEvery, SafeFor, Booked, AccountSynced, AllKept, FinalsReadable;
    SafeIsKept(d, live, next);
    forall w | w in live ensures SurvivesEvery(d, w) {
      BookedOne(d, live, next);
      KeptNow(d, live, w);
      SurvivesIff(d, w);
      AccountIsForGood(d, live, next, w);
    }
  }

  lemma BookedOne(d: Disk, live: set<nat>, next: nat)
    requires Booked(d, live, next)
    ensures OneFinal(d.ledger)
  {
  }

  lemma KeptNow(d: Disk, live: set<nat>, w: nat)
    requires AllKept(d, live) && w in live
    ensures Kept(d, w) && RecordOf(d.view).Some?
  {
    hide Kept, RecordOf;
    KeptNeedsRecord(d, w);
  }

  lemma AccountIsForGood(d: Disk, live: set<nat>, next: nat, w: nat)
    requires CrashSafe(d) && SafeFor(State(d), live) && Booked(d, live, next) && AccountSynced(d)
    requires w in live && Kept(d, w) && RecordOf(d.view).Some?
    ensures ForGood(d, w)
  {
    hide CrashSafe, Booked, Kept, RecordOf, Checkpoints, Payload, SyncedImage, Writes, MayBeThere, MayBeGone, Pending,
         PublishedPayload;
    BookedOne(d, live, next);
    var q := RecordOf(d.view).value.phase.Run();
    if q.Some? && exists g :: IsFinal(d, q.value, g) && GenDir(g) !in Pending(d.log) {
      var g :| IsFinal(d, q.value, g) && GenDir(g) !in Pending(d.log);
      SyncedFinal(d, g);
      FinalRolls(d, q.value, g);
      OneRoll(d, g, w);
      forall h | FinalOf(d.ledger, q.value, h) ensures h == g { assert FinalOf(d.ledger, q.value, g); }
    } else {
      assert Visible(State(d).value, w);
      SeenIsSynced(d, w);
      forall g | q.Some? && FinalOf(d.ledger, q.value, g) ensures w in Writes(PublishedPayload(d.ledger, g)) {
        FinalHasAll(d, live, q.value, g, next);
      }
    }
  }

  lemma SeenIsSynced(d: Disk, w: nat)
    requires RecordOf(d.view).Some? && Visible(State(d).value, w)
    requires RecordOf(d.view).value.phase.Dirty? ==>
               SyncedImage(d.base, d.log, RecordOf(d.view).value.phase.run) == ImageOn(d.view, RecordOf(d.view).value.phase.run)
    ensures InSaved(d, w) || InSynced(d, w)
  {
    hide RecordOf, Checkpoints, Payload, SyncedImage;
  }

  lemma FinalIsSynced(d: Disk, run: RunId, g: GenerationId)
    requires RecordOf(d.view).Some? && RecordOf(d.view).value.phase.Run() == Some(run)
    requires IsFinal(d, run, g) && GenDir(g) !in Pending(d.log)
    ensures AccountSynced(d)
  {
    hide RecordOf, IsFinal, Pending;
  }

  lemma FlushedIsSynced(d: Disk, run: RunId)
    requires RecordOf(d.view).Some? && RecordOf(d.view).value.phase.Run() == Some(run)
    requires SyncedImage(d.base, d.log, run) == ImageOn(d.view, run)
    ensures AccountSynced(d)
  {
    hide RecordOf, SyncedImage, ImageOn, Pending;
  }

  lemma StoppedIsSynced(d: Disk)
    requires RecordOf(d.view).Some? && RecordOf(d.view).value.phase == Stopped
    ensures AccountSynced(d)
  {
    hide RecordOf;
  }
}
