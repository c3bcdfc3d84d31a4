/**
  Checkpoints and restore on top of a stopped instance's store
  (src/checkpoints.rs). Holding the store is holding the instance lock.
 */
module CheckpointOps {
  import opened Layout
  import opened Journal
  import opened StoreModel
  import opened StoreWrites
  import opened Disks
  import opened Garbage
  import opened Instances
  import opened Stores
  import opened CrashTheorems

  /** Checkpoints that match by id or by name (src/checkpoints.rs:117-123). */
  function Matches(fs: Fs, id: Option<CheckpointId>, name: string): set<CheckpointRef> {
    set ref | ref in ListedRefs(fs) && (Some(ref.id) == id || ref.name == Some(name))
  }

  datatype Resolved = Found(ref: CheckpointRef) | NotFound | Ambiguous

  /** Resolves an identifier, read as an id where it is one, to the one checkpoint
      it names (src/checkpoints.rs:117-129). */
  method Resolve(store: Store, id: Option<CheckpointId>, name: string) returns (r: Resolved)
    ensures r == NotFound <==> forall ref :: ref in ListedRefs(store.disk.view) ==>
                                 Some(ref.id) != id && ref.name != Some(name)
    ensures r.Found? ==> Matches(store.disk.view, id, name) == {r.ref}
    ensures r == Ambiguous ==> exists a, b :: a != b && a in Matches(store.disk.view, id, name) && b in Matches(store.disk.view, id, name)
  {
    var matches := Matches(store.disk.view, id, name);
    if matches == {} {
      assert forall ref :: ref in ListedRefs(store.disk.view) && (Some(ref.id) == id || ref.name == Some(name)) ==> ref in matches;
      return NotFound;
    }
    var ref :| ref in matches;
    if matches == {ref} {
      return Found(ref);
    }
    assert (forall x :: x in matches ==> x == ref) ==> matches == {ref};
    r := Ambiguous;
  }

  /** Checkpoints a stopped instance: names its latest generation as it is
      (src/checkpoints.rs:85-99). */
  method Create(store: Store, id: CheckpointId, name: Option<string>, now: nat) returns (r: Outcome<CheckpointRef>)
    requires Valid(store.disk)
    modifies store
    ensures CrashSafe(store.disk) && Later(old(store.disk), store.disk)
    ensures store.disk.journaled || r != Err(Io) ==> Valid(store.disk)
    ensures r.Ok? ==>
              && State(old(store.disk)).Some? && State(old(store.disk)).value.current.Some?
              && State(store.disk) == Some(State(old(store.disk)).value.(checkpoints :=
                   State(old(store.disk)).value.checkpoints[id := SavedState(name, State(old(store.disk)).value.current.value)]))
    ensures r == Err(NoSavedState) <==> State(old(store.disk)).None? || State(old(store.disk)).value.current.None?
    ensures r == Err(NoSavedState) ==> store.disk == old(store.disk)
    ensures r.Err? ==> r == Err(NoSavedState) || (r == Err(Io) && store.Fallible())
  {
    hide Valid, CrashSafe, Later, Grows, Only, OtherRefsSame, Checkpoints, Open, Payload;
    Unchanged(store.disk);
    var record := RecordOf(store.disk.view);
    if record.None? || record.value.latest.None? {
      return Err(NoSavedState);
    }
    LatestIsInPlace(store.disk);
    var ref := CheckpointRef(id, name, record.value.latest.value, now);
    var w := store.AddCheckpoint(ref);
    if w.Err? {
      return Err(w.error);
    }
    r := Ok(ref);
  }

  /** An older `before-restore` checkpoint than `before`. */
  predicate IsOlder(ref: CheckpointRef, before: CheckpointId) {
    ref.name == Some(BEFORE_RESTORE) && ref.id != before
  }

  /** From `a`, only older `before-restore` refs were removed; those left are in `todo`. */
  ghost predicate Pruned(a: Fs, b: Fs, before: CheckpointId, todo: set<CheckpointRef>) {
    && RecordOf(a) == RecordOf(b)
    && (forall c :: RefOf(b, c) == RefOf(a, c) || (RefOf(a, c).Some? && RefOf(b, c) == None && IsOlder(RefOf(a, c).value, before)))
    && (forall c :: RefOf(b, c).Some? && IsOlder(RefOf(b, c).value, before) ==> RefOf(b, c).value in todo)
  }

  lemma RefsCarryTheirIds(d: Disk)
    requires CrashSafe(d)
    ensures forall c :: RefOf(d.view, c).Some? ==> RefOf(d.view, c).value.id == c
  {
    forall c | RefOf(d.view, c).Some? ensures RefOf(d.view, c).value.id == c { RefsAreListed(d, c); }
  }

  lemma PrunedStart(d: Disk, before: CheckpointId)
    requires CrashSafe(d)
    ensures Pruned(d.view, d.view, before, set ref | ref in ListedRefs(d.view) && IsOlder(ref, before))
  {
    forall c | RefOf(d.view, c).Some? ensures RefOf(d.view, c).value in ListedRefs(d.view) { RefsAreListed(d, c); }
  }

  lemma PrunedStep(a: Fs, b: Fs, e: Fs, before: CheckpointId, todo: set<CheckpointRef>, older: CheckpointRef)
    requires Pruned(a, b, before, todo) && older in todo && IsOlder(older, before)
    requires RefOf(b, older.id) == Some(older)
    requires forall c :: RefOf(b, c).Some? ==> RefOf(b, c).value.id == c
    requires RecordOf(e) == RecordOf(b) && OtherRefsSame(b, e, older.id)
    requires RefOf(e, older.id) == RefOf(b, older.id) || RefOf(e, older.id) == None
    ensures Pruned(a, e, before, todo)
    ensures RefOf(e, older.id) == None ==> Pruned(a, e, before, todo - {older})
  {
    hide RecordOf, RefOf;
    forall c ensures RefOf(e, c) == RefOf(a, c) || (RefOf(a, c).Some? && RefOf(e, c) == None && IsOlder(RefOf(a, c).value, before)) {
      if c != older.id { assert RefOf(b, c) == RefOf(e, c); }
    }
    forall c | RefOf(e, c).Some? && IsOlder(RefOf(e, c).value, before)
      ensures RefOf(e, c).value in todo && (RefOf(e, older.id) == None ==> RefOf(e, c).value != older)
    {
      if c != older.id { assert RefOf(b, c) == RefOf(e, c); }
    }
  }

  lemma OtherRefIs(a: Fs, b: Fs, c: CheckpointId, e: CheckpointId)
    requires OtherRefsSame(a, b, c) && e != c
    ensures RefOf(a, e) == RefOf(b, e)
  {
  }

  /** The record or a checkpoint has named `g` at every moment since the log was `n` long. */
  ghost predicate NamedSince(d: Disk, n: nat, g: GenerationId) {
    n <= |d.log| && forall k :: n <= k <= |d.log| ==> !Unnamed(Past(d, k).view, g)
  }

  lemma NamedNow(d: Disk, g: GenerationId)
    requires CrashSafe(d) && !Unnamed(d.view, g)
    ensures NamedSince(d, |d.log|, g)
  {
    hide Unnamed, Safe, LedgerOk;
    assert d.log[..|d.log|] == d.log;
  }

  /** An operation with one commit point that leaves `g` named had it named throughout. */
  lemma NamedOn(a: Disk, b: Disk, n: nat, g: GenerationId)
    requires CrashSafe(a) && CrashSafe(b) && Later(a, b) && CommitCount(b.log) <= CommitCount(a.log) + 1
    requires NamedSince(a, n, g) && !Unnamed(b.view, g)
    ensures NamedSince(b, n, g)
  {
    hide CrashSafe, Unnamed, SameCommitted, CommitCount, View, Grows;
    forall k | n <= k <= |b.log| ensures !Unnamed(Past(b, k).view, g) {
      if k < |a.log| {
        assert b.log[..k] == a.log[..k];
        assert !Unnamed(Past(a, k).view, g);
      } else {
        MomentIsBeforeOrAfter(a, b, k);
        NamedInA(a, n, g);
        CommittedNames(Past(b, k), a, g);
        CommittedNames(Past(b, k), b, g);
      }
    }
  }

  lemma NamedInA(a: Disk, n: nat, g: GenerationId)
    requires CrashSafe(a) && NamedSince(a, n, g)
    ensures !Unnamed(a.view, g)
  {
    hide Unnamed, Safe, LedgerOk;
    assert a.log[..|a.log|] == a.log;
    assert !Unnamed(Past(a, |a.log|).view, g);
  }

  lemma CommittedNames(a: Disk, b: Disk, g: GenerationId)
    ensures SameCommitted(a, b) ==> (Unnamed(a.view, g) <==> Unnamed(b.view, g))
  {
    hide RecordOf, RefOf;
    if SameCommitted(a, b) {
      forall c ensures RefOf(a.view, c) == RefOf(b.view, c) {}
    }
  }

  /** A power loss at any of those moments, on a journaled file system, leaves `g`
      named, and so complete. */
  lemma NamedAfterPowerLoss(d: Disk, n: nat, g: GenerationId, survivor: Fs) returns (k: nat)
    requires CrashSafe(d) && d.journaled && NamedSince(d, n, g) && CrashState(d.base, d.log, d.journaled, survivor)
    ensures k <= |d.log| && SameCommitted(Rebooted(d, survivor), Past(d, k))
    ensures k < n || (!Unnamed(survivor, g) && Complete(survivor, d.ledger, g))
  {
    hide CrashSafe, CrashState, State, Unnamed, Complete;
    k := PowerLossShowsOneMoment(d, survivor);
    if k >= n {
      CommittedNames(Rebooted(d, survivor), Past(d, k), g);
      SurvivorNames(d, survivor, g);
    }
  }

  lemma SurvivorNames(d: Disk, survivor: Fs, g: GenerationId)
    requires CrashSafe(d) && CrashState(d.base, d.log, d.journaled, survivor) && !Unnamed(survivor, g)
    ensures Complete(survivor, d.ledger, g)
  {
    hide Complete, CrashState;
    assert Good(survivor, d.ledger, d.journaled);
    if !(RecordOf(survivor).Some? && Names(RecordOf(survivor).value, g)) {
      var c :| RefOf(survivor, c).Some? && RefOf(survivor, c).value.generation == g;
      assert RefGood(survivor, d.ledger, c);
    }
  }

  /** Drops the older `before-restore` checkpoints (src/checkpoints.rs:171-175). What
      `before` names stays named at every moment on the way. */
  method Prune(store: Store, before: CheckpointId, pinned: set<GenerationId>, ghost n: nat, ghost g: GenerationId)
    returns (r: Outcome<()>)
    requires Valid(store.disk) && RecordOf(store.disk.view).Some?
    requires RefOf(store.disk.view, before).Some? && RefOf(store.disk.view, before).value.generation == g
    requires NamedSince(store.disk, n, g)
    modifies store
    ensures NamedSince(store.disk, n, g)
    ensures CrashSafe(store.disk) && Later(old(store.disk), store.disk)
    ensures store.disk.journaled || r != Err(Io) ==> Valid(store.disk)
    ensures store.disk.ledger == old(store.disk).ledger
    ensures exists todo :: Pruned(old(store.disk).view, store.disk.view, before, todo)
    ensures r.Ok? ==> Pruned(old(store.disk).view, store.disk.view, before, {})
    ensures r.Err? ==> r == Err(Io) && store.Fallible()
    ensures SameRuns(old(store.disk), store.disk) && OnlyStops(old(store.disk), store.disk)
  {
    hide OnlyStops, Images, RunRecords, Valid, CrashSafe, Later, Grows, RefOf, RecordOf, OtherRefsSame, State,
         Forgotten, NoGarbage, Pruned, ListedRefs, NamedSince, CommitCount, Unnamed;
    Unchanged(store.disk);
    PrunedStart(store.disk, before);
    var todo := set ref | ref in ListedRefs(store.disk.view) && IsOlder(ref, before);
    forall ref | ref in todo ensures RefOf(store.disk.view, ref.id) == Some(ref) { ListedAreRefs(store.disk, ref); }
    ghost var start := store.disk;
    StopsOnce(start, start);
    while todo != {}
      invariant Valid(store.disk) && Later(start, store.disk) && store.disk.ledger == start.ledger
      invariant SameRuns(start, store.disk) && OnlyStops(start, store.disk)
      invariant Pruned(start.view, store.disk.view, before, todo) && RecordOf(store.disk.view) == RecordOf(start.view)
      invariant NamedSince(store.disk, n, g) && RefOf(store.disk.view, before) == RefOf(start.view, before)
      invariant forall ref :: ref in todo ==> IsOlder(ref, before) && RefOf(store.disk.view, ref.id) == Some(ref)
      decreases todo
    {
      var older :| older in todo;
      ghost var was := store.disk;
      RefsCarryTheirIds(was);
      var w := store.RemoveCheckpoint(older.id, pinned);
      Then(start, was, store.disk);
      StopsOnce(was, store.disk);
      StopsThen(start, was, store.disk);
      PrunedStep(start.view, was.view, store.disk.view, before, todo, older);
      OtherRefIs(was.view, store.disk.view, older.id, before);
      StillNamed(store.disk.view, g, before);
      NamedOn(was, store.disk, n, g);
      if w.Err? {
        return w;
      }
      forall ref | ref in todo - {older} ensures RefOf(store.disk.view, ref.id) == Some(ref) {
        OtherRefIs(was.view, store.disk.view, older.id, ref.id);
      }
      todo := todo - {older};
    }
    r := Ok(());
  }

  /** The latest generation once recovery has run: a stopped instance's own, a
      published final snapshot of an interrupted run, or what was saved when a
      run that stayed clean began. */
  ghost predicate LatestAfterRecovery(d: Disk, latest: Option<GenerationId>) {
    && RecordOf(d.view).Some?
    && var rec := RecordOf(d.view).value;
       if rec.phase == Stopped then latest == rec.latest
       else
         || (latest.Some? && IsFinal(d, rec.phase.Run().value, latest.value))
         || (rec.phase.Running? && latest == rec.latest)
  }

  lemma RecoveredLatest(a: Disk, b: Disk, how: Recovery)
    requires Recovered(a, b, how)
    ensures LatestAfterRecovery(a, RecordOf(b.view).value.latest)
  {
  }

  /** What a restore that changed something leaves: the target saved, the replaced
      generation under the one `before-restore` checkpoint, and every other
      checkpoint as it was. */
  ghost predicate Restored(a: Disk, b: Disk, target: GenerationId, before: CheckpointRef, previous: GenerationId) {
    && before.name == Some(BEFORE_RESTORE) && before.generation == previous
    && RecordOf(b.view) == Some(Record(Some(target), Stopped))
    && State(b).value.current == Some(PublishedPayload(a.ledger, target)) && State(b).value.open == None
    && RefOf(b.view, before.id) == Some(before)
    && forall c :: c != before.id ==>
         RefOf(b.view, c) == if RefOf(a.view, c).Some? && IsOlder(RefOf(a.view, c).value, before.id) then None
                             else RefOf(a.view, c)
  }

  /** `id` names the generation that was replaced, older checkpoints of that kind are gone, and
      every other one is as it was. */
  ghost predicate OneBeforeRestore(a: Fs, b: Fs, id: CheckpointId, replaced: GenerationId) {
    && RefOf(b, id).Some? && RefOf(b, id).value.name == Some("before-restore") && RefOf(b, id).value.generation == replaced
    && forall c :: c != id ==>
         RefOf(b, c) == if RefOf(a, c).Some? && RefOf(a, c).value.name == Some("before-restore") then None else RefOf(a, c)
  }

  lemma RestoredRefs(a: Disk, b: Disk, target: GenerationId, before: CheckpointRef, previous: GenerationId)
    requires CrashSafe(a) && Restored(a, b, target, before, previous)
    ensures OneBeforeRestore(a.view, b.view, before.id, previous)
  {
    hide RefOf, CrashSafe, RecordOf, State;
    RefsCarryTheirIds(a);
  }

  lemma StillNamed(fs: Fs, g: GenerationId, c: CheckpointId)
    requires
      || (RecordOf(fs).Some? && RecordOf(fs).value.latest == Some(g))
      || (RefOf(fs, c).Some? && RefOf(fs, c).value.generation == g)
    ensures !Unnamed(fs, g)
  {
  }

  lemma PrunedKeeps(a: Fs, b: Fs, before: CheckpointRef, todo: set<CheckpointRef>)
    requires Pruned(a, b, before.id, todo) && RefOf(a, before.id) == Some(before)
    ensures RefOf(b, before.id) == Some(before) && RecordOf(b) == RecordOf(a)
  {
    hide RefOf, RecordOf;
  }

  lemma RestoredIs(a: Disk, b: Disk, e: Disk, target: GenerationId, before: CheckpointRef)
    requires CrashSafe(a) && Grows(a.ledger, e.ledger) && target in a.ledger.published
    requires before.name == Some(BEFORE_RESTORE)
    requires OtherRefsSame(a.view, b.view, before.id) && RefOf(b.view, before.id) == Some(before)
    requires RecordOf(b.view) == Some(Record(Some(target), Stopped))
    requires Pruned(b.view, e.view, before.id, {})
    ensures Restored(a, e, target, before, before.generation)
  {
    hide CrashSafe, RecordOf, RefOf, Checkpoints;
    PrunedKeeps(b.view, e.view, before, {});
    PayloadKept(a.ledger, e.ledger, target);
    forall c | c != before.id
      ensures RefOf(e.view, c) == if RefOf(a.view, c).Some? && IsOlder(RefOf(a.view, c).value, before.id) then None else RefOf(a.view, c)
    {
      assert RefOf(a.view, c) == RefOf(b.view, c);
    }
  }

  ghost predicate RefNames(fs: Fs, g: GenerationId) {
    exists c :: RefOf(fs, c).Some? && RefOf(fs, c).value.generation == g
  }

  lemma NamedByRef(a: Disk, b: Disk, d: Disk, id: CheckpointId, g: GenerationId)
    requires SameRefs(a.view, b.view) && OtherRefsSame(b.view, d.view, id) && RefOf(a.view, id).None?
    requires CrashSafe(d) && RefNames(a.view, g)
    ensures IsInPlace(d.view, g)
  {
    hide RefOf, CrashSafe;
    var c :| RefOf(a.view, c).Some? && RefOf(a.view, c).value.generation == g;
    assert RefOf(b.view, c) == RefOf(a.view, c) && RefOf(d.view, c) == RefOf(b.view, c);
    RefIsInPlace(d, c);
  }

  lemma RefIsInPlace(d: Disk, c: CheckpointId)
    requires CrashSafe(d) && RefOf(d.view, c).Some?
    ensures IsInPlace(d.view, RefOf(d.view, c).value.generation)
  {
    ViewIsGood(d);
    assert RefGood(d.view, d.ledger, c);
  }

  /** Rolls a stopped instance back to `target` (src/checkpoints.rs:152-184); `id`
      is the new checkpoint's id and `previous` the generation it replaces, which
      stays named by the record or a checkpoint wherever the restore stops. */
  method Restore(store: Store, target: GenerationId, id: CheckpointId, now: nat, pinned: set<GenerationId>)
    returns (r: Outcome<Option<CheckpointRef>>, ghost previous: Option<GenerationId>, ghost since: nat)
    requires Valid(store.disk) && RefOf(store.disk.view, id).None?
    modifies store
    ensures CrashSafe(store.disk) && Later(old(store.disk), store.disk)
    ensures store.disk.journaled || r != Err(Io) ==> Valid(store.disk)
    ensures previous.Some? ==> !Unnamed(store.disk.view, previous.value)
    // at every moment from the end of recovery on, so a power loss finds it too
    ensures previous.Some? ==> |old(store.disk).log| <= since && NamedSince(store.disk, since, previous.value)
    ensures r.Ok? || previous.Some? ==> LatestAfterRecovery(old(store.disk), previous) && previous.Some?
    ensures r == Ok(None) ==>
              previous == Some(target) && RecordOf(store.disk.view) == Some(Record(previous, Stopped))
              && SameRefs(old(store.disk).view, store.disk.view)
    ensures r.Ok? && r.value.Some? ==>
              && previous != Some(target) && r.value.value.id == id
              && Restored(old(store.disk), store.disk, target, r.value.value, previous.value)
              && OneBeforeRestore(old(store.disk).view, store.disk.view, id, previous.value)
    ensures r.Err? && r.error.CrashedWithUnsavedState? ==>
              && store.disk == old(store.disk)
              && RecordOf(store.disk.view).Some? && RecordOf(store.disk.view).value.phase == Dirty(r.error.run)
              && forall g :: !IsFinal(store.disk, r.error.run, g)
    // a target some checkpoint names is there to restore
    ensures r.Err? ==>
              || (r == Err(Io) && store.Fallible()) || r.error.CrashedWithUnsavedState?
              || (r == Err(NoState) && RecordOf(old(store.disk).view).None?)
              || (r == Err(NoSavedState) && LatestAfterRecovery(old(store.disk), None))
              || (r == Err(BadGeneration(target)) && !RefNames(old(store.disk).view, target))
    ensures store.disk.ledger.published == old(store.disk).ledger.published
    ensures SameRuns(old(store.disk), store.disk)
    ensures previous.Some? ==>
              || RecordOf(store.disk.view) == Some(Record(previous, Stopped))
              || RecordOf(store.disk.view) == Some(Record(Some(target), Stopped))
    ensures previous.None? ==>
              || (State(store.disk) == State(old(store.disk)) && RecordOf(store.disk.view) == RecordOf(old(store.disk).view)
                  && SameFinals(old(store.disk), store.disk))
              || exists how :: Recovered(old(store.disk), store.disk, how)
    ensures OnlyStops(old(store.disk), store.disk)
  {
    hide OnlyStops, Images, RunRecords, Unsynced, RecordDurable, Valid, CrashSafe, Later, Grows, State, FewerFinals,
         SameFinals, RefOf, RecordOf, OtherRefsSame, Only, SameRefs, Pruned, Restored, Recovered, NoGarbage, NamedSince,
         CommitCount, LatestAfterRecovery, CommitOutcome, Checkpointed, Unnamed, IsFinal, RefNames, IsInPlace,
         OneBeforeRestore;
    previous, since := None, 0;
    Unchanged(store.disk);
    StopsOnce(store.disk, store.disk);
    var recovered := store.Recover(pinned);
    ghost var d1 := store.disk;
    RecoverOnlyStops(old(store.disk), d1, recovered);
    if recovered.Err? {
      return Err(recovered.error), None, 0;
    }
    since := |d1.log|;
    LaterIsLonger(old(store.disk), d1);
    RecoveredLatest(old(store.disk), store.disk, recovered.value);
    RecoveredStops(old(store.disk), store.disk, recovered.value);
    var record := RecordOf(store.disk.view);
    if record.value.latest.None? {
      return Err(NoSavedState), None, since;
    }
    var replaced := record.value.latest.value;
    previous := Some(replaced);
    StillNamed(store.disk.view, replaced, id);
    NamedNow(d1, replaced);
    if replaced == target {
      return Ok(None), previous, since;
    }
    var before := CheckpointRef(id, Some(BEFORE_RESTORE), replaced, now);
    LatestIsInPlace(d1);
    var w := store.AddCheckpoint(before);
    ghost var d2 := store.disk;
    Then(old(store.disk), d1, d2);
    OnlyKeeps(InRefs, d1.view, d2.view);
    StillNamed(store.disk.view, replaced, id);
    NamedOn(d1, d2, since, replaced);
    StopsOnce(d1, d2);
    StopsThen(old(store.disk), d1, d2);
    if w.Err? {
      return Err(w.error), previous, since;
    }
    InPlaceIsPublished(store.disk, target);
    if RefNames(old(store.disk).view, target) { NamedByRef(old(store.disk), d1, d2, id, target); }
    w := store.CommitLatest(target, pinned);
    ghost var d3 := store.disk;
    Then(old(store.disk), d2, d3);
    SameRefIs(d2.view, d3.view, id);
    StillNamed(store.disk.view, replaced, id);
    NamedOn(d2, d3, since, replaced);
    CommitMeans(d2, d3, Record(Some(target), Stopped), w);
    StopsOnce(d2, d3);
    StopsThen(old(store.disk), d2, d3);
    if w.Err? {
      return Err(w.error), previous, since;
    }
    w := Prune(store, id, pinned, since, replaced);
    ghost var d4 := store.disk;
    Then(old(store.disk), d3, d4);
    StopsThen(old(store.disk), d3, d4);
    ghost var todo :| Pruned(d3.view, d4.view, id, todo);
    PrunedKeeps(d3.view, d4.view, before, todo);
    StillNamed(store.disk.view, replaced, id);
    if w.Err? {
      return Err(w.error), previous, since;
    }
    RestoreEnds(old(store.disk), d1, d2, d3, d4, target, before);
    RestoredRefs(old(store.disk), d4, target, before, replaced);
    r := Ok(Some(before));
  }

  lemma LaterIsLonger(a: Disk, b: Disk)
    requires Later(a, b)
    ensures |a.log| <= |b.log|
  {
  }

  lemma InPlaceIsPublished(d: Disk, g: GenerationId)
    requires Valid(d)
    ensures IsInPlace(d.view, g) ==> g in d.ledger.published
  {
    assert IsInPlace(d.view, g) ==> Complete(d.view, d.ledger, g);
  }

  lemma RecoveredStops(a: Disk, b: Disk, how: Recovery)
    requires Recovered(a, b, how)
    ensures RecordOf(b.view).Some? && RecordOf(b.view).value.phase == Stopped
  {
  }

  lemma RecoverOnlyStops(a: Disk, b: Disk, r: Outcome<Recovery>)
    requires CrashSafe(a) && CrashSafe(b) && Later(a, b) && CommitCount(b.log) <= CommitCount(a.log) + 1
    requires r.Ok? ==> Recovered(a, b, r.value)
    requires r == Err(Io) ==> RecordOf(b.view) == RecordOf(a.view) || exists how :: Recovered(a, b, how)
    requires r.Err? && r != Err(Io) ==> b == a
    ensures OnlyStops(a, b)
  {
    hide CrashSafe, Later, CommitCount, RecordOf, Recovered, OnlyStops;
    if r.Ok? {
      RecoveredStops(a, b, r.value);
    } else if how :| Recovered(a, b, how) {
      RecoveredStops(a, b, how);
    }
    StopsOnce(a, b);
  }

  lemma SameRefIs(a: Fs, b: Fs, c: CheckpointId)
    requires SameRefs(a, b)
    ensures RefOf(a, c) == RefOf(b, c)
  {
  }

  lemma CommitMeans(a: Disk, b: Disk, rec: Record, r: Outcome<()>)
    requires b == a || CommitOutcome(a, b, rec, r.Ok?)
    ensures RecordOf(b.view) == RecordOf(a.view) || RecordOf(b.view) == Some(rec)
    ensures r.Ok? && CommitOutcome(a, b, rec, r.Ok?) ==> RecordOf(b.view) == Some(rec)
  {
  }

  lemma RestoreEnds(a: Disk, b: Disk, c: Disk, d: Disk, e: Disk, target: GenerationId, before: CheckpointRef)
    requires CrashSafe(a) && Later(a, e) && before.name == Some(BEFORE_RESTORE)
    requires SameRefs(a.view, b.view) && OtherRefsSame(b.view, c.view, before.id) && SameRefs(c.view, d.view)
    requires RefOf(c.view, before.id) == Some(before) && RecordOf(d.view) == Some(Record(Some(target), Stopped))
    requires Pruned(d.view, e.view, before.id, {}) && target in a.ledger.published
    ensures Restored(a, e, target, before, before.generation)
  {
    hide CrashSafe, RefOf, RecordOf, Pruned, Restored;
    forall x | x != before.id ensures RefOf(a.view, x) == RefOf(d.view, x) {
      assert RefOf(a.view, x) == RefOf(b.view, x) == RefOf(c.view, x) == RefOf(d.view, x);
    }
    assert RefOf(d.view, before.id) == RefOf(c.view, before.id);
    RestoredIs(a, d, e, target, before);
  }

  /** Restoring the `before-restore` checkpoint undoes a restore that changed
      something: the latest generation is the original one again, and what the
      first restore brought in is now the one kept as `before-restore`. Only a
      fault can keep the second restore from doing so. */
  method RestoreAndUndo(store: Store, target: GenerationId, id: CheckpointId, id2: CheckpointId, now: nat, pinned: set<GenerationId>)
    returns (first: Outcome<Option<CheckpointRef>>, undo: Outcome<Option<CheckpointRef>>, ghost previous: Option<GenerationId>)
    requires Valid(store.disk) && RefOf(store.disk.view, id).None? && RefOf(store.disk.view, id2).None? && id != id2
    modifies store
    ensures CrashSafe(store.disk)
    ensures first.Ok? && first.value.Some? ==> LatestAfterRecovery(old(store.disk), previous) && previous.Some?
    ensures first.Ok? && first.value.Some? && !store.Fallible() ==> undo.Ok? && undo.value.Some?
    ensures first.Ok? && first.value.Some? && undo.Ok? ==>
              && undo.value.Some? && RecordOf(store.disk.view) == Some(Record(previous, Stopped))
              && RefOf(store.disk.view, id2) == Some(undo.value.value) && undo.value.value.generation == target
              && forall c :: c != id2 && RefOf(store.disk.view, c).Some? ==> RefOf(store.disk.view, c).value.name != Some(BEFORE_RESTORE)
  {
    hide Valid, CrashSafe, Later, Grows, State, RefOf, RecordOf, SameRefs, LatestAfterRecovery, Unnamed, RefNames,
         NamedSince, Images, RunRecords, FewerFinals, Recovered, PublishedPayload;
    ghost var since;
    first, previous, since := Restore(store, target, id, now, pinned);
    if first.Err? || first.value.None? {
      return first, first, previous;
    }
    var before := first.value.value;
    ghost var d1 := store.disk;
    RefsCarryTheirIds(d1);
    NamesIt(d1.view, id, before);
    ghost var again;
    undo, again, since := Restore(store, before.generation, id2, now, pinned);
    if undo.Ok? { StoppedLatest(d1, again); }
    NotStuck(d1);
  }

  lemma NamesIt(fs: Fs, c: CheckpointId, ref: CheckpointRef)
    requires RefOf(fs, c) == Some(ref)
    ensures RefNames(fs, ref.generation)
  {
  }

  /** A stopped instance with a saved state gives recovery nothing to refuse. */
  lemma NotStuck(d: Disk)
    requires RecordOf(d.view).Some? && RecordOf(d.view).value.phase == Stopped && RecordOf(d.view).value.latest.Some?
    ensures !LatestAfterRecovery(d, None)
  {
  }

  lemma StoppedLatest(d: Disk, latest: Option<GenerationId>)
    requires LatestAfterRecovery(d, latest) && RecordOf(d.view).Some? && RecordOf(d.view).value.phase == Stopped
    ensures latest == RecordOf(d.view).value.latest
  {
  }
}
