/** What a power loss may show, beyond being good. */
module CrashTheorems {
  import opened Layout
  import opened Journal
  import opened StoreModel
  import opened StoreWrites
  import opened Disks
  import opened RunDisks
  import opened Instances

  /** The record and refs a good disk holds are fixed by its directory entries. */
  lemma EntriesFixCommitted(a: Fs, b: Fs, ledger: Ledger, journaled: bool)
    requires Good(a, ledger, journaled) && Good(b, ledger, journaled)
    requires forall l | IsEntry(l) :: Get(a, l) == Get(b, l)
    ensures RecordOf(a) == RecordOf(b) && SameRefs(a, b)
  {
    hide Complete, RunComplete, InPlaceComplete;
    assert Get(a, RecordEntry) == Get(b, RecordEntry);
    forall c ensures RefOf(a, c) == RefOf(b, c) {
      assert RefGood(a, ledger, c) && RefGood(b, ledger, c);
      assert Get(a, RefEntry(c)) == Get(b, RefEntry(c));
    }
  }

  lemma MayShow(d: Disk, keep: set<nat>)
    requires Allowed(d.log, keep, d.journaled)
    ensures CrashState(d.base, d.log, d.journaled, Survive(d.base, d.log, keep))
  {
  }

  /** The disk as it was when the log was `k` entries long. */
  function Past(d: Disk, k: nat): Disk
    requires k <= |d.log|
  {
    d.(view := View(d.base, d.log[..k]), log := d.log[..k])
  }

  /** On a journaled file system a power loss, whatever it loses, shows the record,
      checkpoints and final snapshots of one earlier moment, and so the same saved
      states: never a mix of two. Of each run's disk it shows at least what had been
      synced by then. */
  lemma PowerLossShowsOneMoment(d: Disk, survivor: Fs) returns (k: nat)
    requires CrashSafe(d) && d.journaled && CrashState(d.base, d.log, d.journaled, survivor)
    ensures k <= |d.log| && forall r :: SyncedImage(d.base, d.log[..k], r) <= ImageOn(survivor, r)
    ensures var now, past := Rebooted(d, survivor), Past(d, k);
            && RecordOf(now.view) == RecordOf(past.view) && SameRefs(now.view, past.view) && SameFinals(now, past)
            && (State(now).Some? <==> State(past).Some?)
            && (State(now).Some? ==>
                  && State(now).value.current == State(past).value.current
                  && State(now).value.checkpoints == State(past).value.checkpoints
                  && RecordOf(now.view).value.phase == RecordOf(past.view).value.phase)
  {
    hide Good, CrashState, SameRefs, SyncedImage, ImagesGrow;
    k := MomentHasSynced(d.base, d.log, d.journaled, survivor);
    var past := Past(d, k).view;
    ViewIsCrashState(d.base, d.log[..k], d.journaled);
    EarlierCrashStaysPossible(d.base, d.log, d.journaled, k, past);
    assert Good(survivor, d.ledger, d.journaled) && Good(past, d.ledger, d.journaled);
    EntriesFixCommitted(survivor, past, d.ledger, d.journaled);
    forall q, g ensures IsFinal(Rebooted(d, survivor), q, g) <==> IsFinal(Past(d, k), q, g) {
      assert Get(survivor, GenDir(g)) == Get(past, GenDir(g));
    }
    SameRefsSameCheckpoints(Rebooted(d, survivor), Past(d, k));
  }

  /** The record and the references of one disk are those of another. */
  ghost predicate SameCommitted(a: Disk, b: Disk) {
    RecordOf(a.view) == RecordOf(b.view) && SameRefs(a.view, b.view)
  }

  lemma PastIsGood(d: Disk, k: nat)
    requires CrashSafe(d) && k <= |d.log|
    ensures Good(Past(d, k).view, d.ledger, d.journaled)
  {
    hide Good, CrashState;
    ViewIsCrashState(d.base, d.log[..k], d.journaled);
    EarlierCrashStaysPossible(d.base, d.log, d.journaled, k, Past(d, k).view);
  }

  /** An operation with one commit point is atomic at every moment inside it: what
      is committed is what was committed before it, or after it. */
  lemma MomentIsBeforeOrAfter(a: Disk, b: Disk, k: nat)
    requires CrashSafe(a) && CrashSafe(b) && Later(a, b) && CommitCount(b.log) <= CommitCount(a.log) + 1
    requires |a.log| <= k <= |b.log|
    ensures SameCommitted(Past(b, k), a) || SameCommitted(Past(b, k), b)
  {
    hide Good, Safe, LedgerOk, SameRefs, RecordOf, CommitCount, View, Grows;
    var j := |a.log|;
    assert b.log[..j] == a.log;
    OneCommitBetween(b.base, b.log, j, k);
    PastIsGood(b, k);
    PastIsGood(b, j);
    ViewIsGood(b);
    var past := Past(b, k).view;
    if forall l | IsEntry(l) :: Get(past, l) == Get(a.view, l) {
      EntriesFixCommitted(past, a.view, b.ledger, b.journaled);
    } else {
      EntriesFixCommitted(past, b.view, b.ledger, b.journaled);
    }
  }

  /** From `a` on, the record was what it was in `a`, or that of a stopped instance. */
  ghost predicate OnlyStops(a: Disk, b: Disk) {
    forall k :: |a.log| <= k <= |b.log| ==>
      var rec := RecordOf(Past(b, k).view);
      rec == RecordOf(a.view) || (rec.Some? && rec.value.phase == Stopped)
  }

  lemma StopsOnce(a: Disk, b: Disk)
    requires CrashSafe(a) && CrashSafe(b) && Later(a, b) && CommitCount(b.log) <= CommitCount(a.log) + 1
    requires RecordOf(b.view) == RecordOf(a.view) || (RecordOf(b.view).Some? && RecordOf(b.view).value.phase == Stopped)
    ensures OnlyStops(a, b)
  {
    hide CrashSafe, Later, CommitCount, RecordOf, View, SameRefs;
    forall k | |a.log| <= k <= |b.log|
      ensures var rec := RecordOf(Past(b, k).view); rec == RecordOf(a.view) || (rec.Some? && rec.value.phase == Stopped)
    {
      MomentIsBeforeOrAfter(a, b, k);
    }
  }

  lemma StopsThen(a: Disk, b: Disk, c: Disk)
    requires OnlyStops(a, b) && OnlyStops(b, c) && Later(a, b) && Later(b, c) && CrashSafe(b)
    ensures OnlyStops(a, c)
  {
    hide RecordOf, View, Safe, LedgerOk, ImagesGrow, Grows;
    assert b.log[..|b.log|] == b.log && Past(b, |b.log|).view == b.view;
    assert RecordOf(b.view) == RecordOf(a.view) || (RecordOf(b.view).Some? && RecordOf(b.view).value.phase == Stopped);
    forall k | |a.log| <= k <= |c.log|
      ensures var rec := RecordOf(Past(c, k).view); rec == RecordOf(a.view) || (rec.Some? && rec.value.phase == Stopped)
    {
      LaterPast(b, c, k);
      if k <= |b.log| { assert RecordOf(Past(c, k).view) == RecordOf(Past(b, k).view); }
    }
  }

  /** From `a` on, the record was what it was in `a`; or it was that of `b`, and by then
      the disk of the run `q` was synced with at least `image` on it. */
  ghost predicate NamedOnceSynced(a: Disk, b: Disk, q: RunId, image: seq<nat>) {
    forall k :: |a.log| <= k <= |b.log| ==>
      var rec := RecordOf(Past(b, k).view);
      rec == RecordOf(a.view) || (rec == RecordOf(b.view) && image <= SyncedImage(b.base, b.log[..k], q))
  }

  lemma NeverNamed(a: Disk, b: Disk, q: RunId, image: seq<nat>)
    requires CrashSafe(a) && CrashSafe(b) && Later(a, b) && CommitCount(b.log) == CommitCount(a.log)
    requires RecordOf(b.view) == RecordOf(a.view)
    ensures NamedOnceSynced(a, b, q, image)
  {
    hide CrashSafe, Later, CommitCount, RecordOf, View, SameRefs, SyncedImage;
    forall k | |a.log| <= k <= |b.log| ensures RecordOf(Past(b, k).view) == RecordOf(a.view) {
      MomentIsBeforeOrAfter(a, b, k);
    }
  }

  /** The run was prepared and synced first, and named then. */
  lemma SyncedThenNamed(a: Disk, b: Disk, c: Disk, q: RunId)
    requires CrashSafe(a) && CrashSafe(b) && CrashSafe(c) && Later(a, b) && Later(b, c)
    requires CommitCount(b.log) == CommitCount(a.log) && RecordOf(b.view) == RecordOf(a.view)
    requires CommitCount(c.log) <= CommitCount(b.log) + 1
    requires RunFile(q, ROOTFS) !in Pending(b.log) || ImageOn(b.view, q) == []
    ensures NamedOnceSynced(a, c, q, ImageOn(b.view, q))
  {
    hide Safe, LedgerOk, Later, CommitCount, RecordOf, View, SameRefs, SyncedImage, ImagesGrow, Pending, ImageOn;
    forall k | |a.log| <= k <= |c.log|
      ensures var rec := RecordOf(Past(c, k).view);
              rec == RecordOf(a.view) || (rec == RecordOf(c.view) && ImageOn(b.view, q) <= SyncedImage(c.base, c.log[..k], q))
    {
      LaterPast(b, c, k);
      if k <= |b.log| {
        MomentIsBeforeOrAfter(a, b, k);
      } else {
        MomentIsBeforeOrAfter(b, c, k);
        SyncedSince(b, c, k, q);
      }
    }
  }

  lemma LaterPast(a: Disk, b: Disk, k: nat)
    requires Later(a, b) && k <= |b.log|
    ensures |a.log| <= |b.log| && b.base == a.base && (k <= |a.log| ==> Past(b, k).view == Past(a, k).view && b.log[..k] == a.log[..k])
  {
    if k <= |a.log| { assert b.log[..k] == a.log[..k]; }
  }

  lemma SyncedSince(a: Disk, b: Disk, k: nat, q: RunId)
    requires CrashSafe(a) && CrashSafe(b) && Later(a, b) && |a.log| <= k <= |b.log|
    requires RunFile(q, ROOTFS) !in Pending(a.log) || ImageOn(a.view, q) == []
    ensures ImageOn(a.view, q) <= SyncedImage(b.base, b.log[..k], q)
  {
    hide Safe, LedgerOk, View, SyncedImage, ImagesGrow, Pending, Grows;
    if ImageOn(a.view, q) != [] {
      AllSynced(a.base, a.log, q);
      SyncedGrows(b.base, b.log, |a.log|, k, q);
      assert b.log[..|a.log|] == a.log;
    }
  }

  /** So a power loss during or after it, on a journaled file system, shows what was
      committed at an earlier moment, before the operation, or after it. */
  lemma PowerLossIsAtomic(a: Disk, b: Disk, survivor: Fs) returns (k: nat)
    requires CrashSafe(a) && CrashSafe(b) && Later(a, b) && CommitCount(b.log) <= CommitCount(a.log) + 1
    requires b.journaled && CrashState(b.base, b.log, b.journaled, survivor)
    ensures k <= |b.log| && SameCommitted(Rebooted(b, survivor), Past(b, k))
    ensures k < |a.log| || SameCommitted(Rebooted(b, survivor), a) || SameCommitted(Rebooted(b, survivor), b)
  {
    hide CrashSafe, CrashState, Later, CommitCount, State, SameRefs, RecordOf;
    k := PowerLossShowsOneMoment(b, survivor);
    if k >= |a.log| {
      MomentIsBeforeOrAfter(a, b, k);
      SameCommittedThen(Rebooted(b, survivor), Past(b, k), a);
      SameCommittedThen(Rebooted(b, survivor), Past(b, k), b);
    }
  }

  lemma SameCommittedThen(a: Disk, b: Disk, c: Disk)
    requires SameCommitted(a, b)
    ensures SameCommitted(b, c) ==> SameCommitted(a, c)
  {
    if SameCommitted(b, c) {
      forall e ensures RefOf(a.view, e) == RefOf(c.view, e) { assert RefOf(a.view, e) == RefOf(b.view, e); }
    }
  }

  lemma SameRefsSameCheckpoints(a: Disk, b: Disk)
    requires a.ledger == b.ledger && SameRefs(a.view, b.view)
    ensures Checkpoints(a) == Checkpoints(b)
  {
    RefIdsAre(a.view);
    RefIdsAre(b.view);
  }

  /** Where a sync waits for the drive, whatever has been synced survives every power
      loss: the record with what it names, each checkpoint, each generation in place. On
      a file system that orders nothing by itself that is everything an operation that
      returned has committed; on a journaled one it is what the record, the reference
      or the generation no longer has pending. */
  lemma ReturnedOperationsAreDurable(d: Disk, survivor: Fs)
    requires CrashSafe(d) && FlushedCrashState(d.base, d.log, d.journaled, survivor)
    ensures Good(survivor, d.ledger, d.journaled)
    ensures RecordDurable(d) ==> RecordOf(survivor) == RecordOf(d.view)
    ensures forall c :: RefDurable(d, c) ==> RefOf(survivor, c) == RefOf(d.view, c)
    ensures forall g :: Complete(d.view, d.ledger, g) && GenDurable(d, g) ==> Complete(survivor, d.ledger, g)
    ensures Valid(d) && !d.journaled ==> RecordOf(survivor) == RecordOf(d.view) && SameRefs(survivor, d.view)
    ensures Valid(d) && !d.journaled ==> forall g :: IsInPlace(d.view, g) ==> Complete(survivor, d.ledger, g)
  {
    hide Good, CrashSafe, FlushedCrashState, Pending, Unsynced, RecordDurable, RefDurable, GenDurable, Valid, Complete,
         IsInPlace, RecordOf, RefOf;
    FlushedIsGood(d, survivor);
    if RecordDurable(d) { RecordSurvives(d, survivor); }
    forall c | RefDurable(d, c) ensures RefOf(survivor, c) == RefOf(d.view, c) { RefSurvives(d, survivor, c); }
    forall g | Complete(d.view, d.ledger, g) && GenDurable(d, g) ensures Complete(survivor, d.ledger, g) {
      GenerationSurvives(d, survivor, g);
    }
    if Valid(d) && !d.journaled { ValidIsDurable(d); }
  }

  /** Nothing in the generation's directory, nor its entry, has a write that no sync covers. */
  ghost predicate GenDurable(d: Disk, g: GenerationId) {
    GenSettled(d.view, Pending(d.log), false, d.ledger, g)
  }

  lemma ValidIsDurable(d: Disk)
    requires Valid(d) && !d.journaled
    ensures RecordDurable(d) && forall c :: RefDurable(d, c)
    ensures forall g :: IsInPlace(d.view, g) ==> Complete(d.view, d.ledger, g) && GenDurable(d, g)
  {
    hide CrashSafe, Complete, GenSettled, Pending;
    forall c ensures RefDurable(d, c) { assert StableLoc(Pending(d.log), d.journaled, RefEntry(c)); }
  }

  lemma FlushedIsGood(d: Disk, survivor: Fs)
    requires CrashSafe(d) && FlushedCrashState(d.base, d.log, d.journaled, survivor)
    ensures CrashState(d.base, d.log, d.journaled, survivor) && Good(survivor, d.ledger, d.journaled)
  {
    hide Good;
  }

  lemma RecordSurvives(d: Disk, survivor: Fs)
    requires CrashSafe(d) && RecordDurable(d) && FlushedCrashState(d.base, d.log, d.journaled, survivor)
    ensures RecordOf(survivor) == RecordOf(d.view)
  {
    hide CrashSafe, FlushedCrashState, Pending;
    SettledSurvives(d, survivor, RecordEntry);
    var e := Get(d.view, RecordEntry);
    if e.Link? { SettledSurvives(d, survivor, RecordFile(e.inode)); }
  }

  lemma RefSurvives(d: Disk, survivor: Fs, c: CheckpointId)
    requires CrashSafe(d) && RefDurable(d, c) && FlushedCrashState(d.base, d.log, d.journaled, survivor)
    ensures RefOf(survivor, c) == RefOf(d.view, c)
  {
    hide CrashSafe, FlushedCrashState, Pending;
    SettledSurvives(d, survivor, RefEntry(c));
    var e := Get(d.view, RefEntry(c));
    if e.Link? { SettledSurvives(d, survivor, RefFile(e.inode)); }
  }

  lemma GenerationSurvives(d: Disk, survivor: Fs, g: GenerationId)
    requires CrashSafe(d) && FlushedCrashState(d.base, d.log, d.journaled, survivor)
    requires Complete(d.view, d.ledger, g) && GenDurable(d, g)
    ensures Complete(survivor, d.ledger, g)
  {
    hide CrashSafe, FlushedCrashState, Pending, GenSettled;
    forall l | l !in Pending(d.log) ensures Get(survivor, l) == Get(d.view, l) { SettledSurvives(d, survivor, l); }
    assert Extends(survivor, d.view, Pending(d.log), false, RecordEntry);
    InPlaceIsComplete(survivor, d.view, Pending(d.log), d.ledger, false, RecordEntry, g);
  }

  lemma SettledSurvives(d: Disk, survivor: Fs, l: Loc)
    requires CrashSafe(d) && FlushedCrashState(d.base, d.log, d.journaled, survivor) && l !in Pending(d.log)
    ensures Get(survivor, l) == Get(d.view, l)
  {
    FlushedSurvives(d.base, d.log, d.journaled, survivor, l);
  }

  lemma LatestIsOld(d: Disk, g: GenerationId)
    requires CrashSafe(d) && RecordOf(d.view).Some? && RecordOf(d.view).value.latest == Some(g)
    ensures g < d.ledger.nextGen && g in d.ledger.published
  {
    ViewIsGood(d);
  }
}
