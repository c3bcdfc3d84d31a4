/** Recovery run again, and what a refusal means (src/store.rs:531-568, 1056-1061). */
module RecoveryOps {
  import opened Layout
  import opened StoreModel
  import opened Disks
  import opened Garbage
  import opened Instances
  import opened Stores

  /** After recovery the instance is stopped and recovering again changes nothing;
      when recovery refuses, nothing changed and the crashed run is the one it names. */
  method RecoverTwice(store: Store, pinned: set<GenerationId>, pinned': set<GenerationId>)
    returns (first: Outcome<Recovery>, second: Outcome<Recovery>, crashed: Option<RunId>, ghost mid: Disk)
    requires Valid(store.disk)
    modifies store
    ensures first.Ok? ==>
              && Recovered(old(store.disk), mid, first.value) && RecordOf(mid.view).value.phase == Stopped
              && RecordOf(store.disk.view) == RecordOf(mid.view) && State(store.disk) == State(mid)
              && (second.Ok? ==> second.value == Clean) && (second.Err? ==> second == Err(Io) && store.Fallible())
    ensures first.Err? && first.error.CrashedWithUnsavedState? ==> crashed == Some(first.error.run) && store.disk == old(store.disk)
    ensures first == Ok(Clean) ==> RecordOf(mid.view) == RecordOf(old(store.disk).view) && crashed == None
  {
    hide Valid, CrashSafe, Later, Grows, State, SameRefs, FewerFinals, IsFinal, NoGarbage;
    crashed := store.CrashedRun();
    PhaseOfState(store.disk);
    first := store.Recover(pinned);
    mid := store.disk;
    second := first;
    if first.Ok? {
      second := store.Recover(pinned');
      RecoveredFromStopped(mid, store.disk, second);
    }
  }

  lemma RecoveredFromStopped(a: Disk, b: Disk, r: Outcome<Recovery>)
    requires RecordOf(a.view).Some? && RecordOf(a.view).value.phase == Stopped
    requires r.Ok? ==> Recovered(a, b, r.value)
    requires r == Err(Io) ==> (State(b) == State(a) && RecordOf(b.view) == RecordOf(a.view)) || exists how :: Recovered(a, b, how)
    ensures r.Ok? ==> r.value == Clean
    ensures r.Ok? || r == Err(Io) ==> State(b) == State(a) && RecordOf(b.view) == RecordOf(a.view)
  {
    hide State, IsFinal;
  }
}
