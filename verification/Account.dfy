/**
  The account of acknowledged guest writes: what it promises about the present state
  of an instance, what it relies on beyond that so that it can be kept over a power
  loss, and why each operation of the store keeps it.
 */
module Accounts {
  import opened Layout
  import opened Journal
  import opened StoreModel
  import opened StoreWrites
  import opened Disks
  import opened RunDisks
  import opened Garbage
  import opened Instances
  import opened Stores
  import opened CheckpointOps
  import opened CrashTheorems

  /** The guest writes a disk image contains. */
  function Writes(files: Files): set<nat> {
    if ROOTFS in files && files[ROOTFS].Data? then set w | w in files[ROOTFS].writes else {}
  }

  /** The write is in the saved state, or on a dirty run's disk. */
  ghost predicate Visible(i: Instance, w: nat) {
    || (i.current.Some? && w in Writes(i.current.value))
    || (i.open.Some? && i.open.value.dirty && w in Writes(i.open.value.files))
  }

  /** What recovery refuses: no instance, or a served run without a final snapshot. */
  ghost predicate Stuck(d: Disk) {
    RecordOf(d.view).None? || (RecordOf(d.view).value.phase.Dirty? && forall g :: !RollsTo(d, g))
  }

  /** Recovery rolls the open run forward to `g`, its newest final snapshot. */
  ghost predicate RollsTo(d: Disk, g: GenerationId) {
    && RecordOf(d.view).Some? && RecordOf(d.view).value.phase.Run().Some?
    && var q := RecordOf(d.view).value.phase.Run().value;
       IsFinal(d, q, g) && forall h :: h > g ==> !IsFinal(d, q, h)
  }

  /** What recovery makes of the disk has the write. Where it rolls forward, that is the
      final snapshot alone; where it drops a run that never served, the saved state;
      where it refuses, the saved state and the dirty run's disk, for the user to choose. */
  ghost predicate Kept(d: Disk, w: nat) {
    if exists g :: RollsTo(d, g) then exists g :: RollsTo(d, g) && w in Writes(PublishedPayload(d.ledger, g))
    else State(d).Some? && Visible(State(d).value, w)
  }

  ghost predicate AllKept(d: Disk, live: set<nat>) { forall w :: w in live ==> Kept(d, w) }

  ghost predicate AckSafe(s: Option<Instance>, live: set<nat>) {
    if s.None? then live == {} else forall w :: w in live ==> Visible(s.value, w)
  }

  /** The open run's disk has everything on the account. */
  ghost predicate OnRun(s: Option<Instance>, live: set<nat>) {
    s.Some? && s.value.open.Some? ==> live <= Writes(s.value.open.value.files)
  }

  /** The whole account can be seen, and is on the disk of any open run. */
  ghost predicate SafeFor(s: Option<Instance>, live: set<nat>) { AckSafe(s, live) && OnRun(s, live) }

  /** The writes on a run's disk. */
  function Held(fs: Fs, q: RunId): set<nat> { set w | w in ImageOn(fs, q) }

  predicate AllBelow(ws: set<nat>, n: nat) { forall w :: w in ws ==> w < n }

  /** `g` was published as the final snapshot of `q`, whatever became of it. */
  predicate FinalOf(a: Ledger, q: RunId, g: GenerationId) {
    g in a.published && OriginOf(a, g) == Snapshot(q)
  }

  /** Rolling forward to it loses nothing: it has every write of the account that is
      on the run's disk or in a saved state recorded beside the run. */
  ghost predicate FinalHolds(d: Disk, live: set<nat>, q: RunId, g: GenerationId) {
    && live * Held(d.view, q) <= Writes(PublishedPayload(d.ledger, g))
    && forall h :: (q, Some(h)) in RunRecords(d.ledger.records) ==>
         live * Writes(PublishedPayload(d.ledger, h)) <= Writes(PublishedPayload(d.ledger, g))
  }

  ghost predicate FinalsHold(d: Disk, live: set<nat>) {
    forall q, g :: FinalOf(d.ledger, q, g) ==> FinalHolds(d, live, q, g)
  }

  /** A run is sealed before its final snapshot is published, so it has no second one. */
  ghost predicate OneFinal(a: Ledger) {
    forall q, g, h :: FinalOf(a, q, g) && FinalOf(a, q, h) ==> g == h
  }

  ghost predicate RecordedArePublished(a: Ledger) {
    forall q: RunId, h: GenerationId :: (q, Some(h)) in RunRecords(a.records) ==> h in a.published
  }

  /** No write has a number that is still to come. */
  ghost predicate Numbered(d: Disk, live: set<nat>, next: nat) {
    && AllBelow(live, next)
    && (forall g :: AllBelow(Writes(PublishedPayload(d.ledger, g)), next))
    && (forall q :: AllBelow(Held(d.view, q), next))
  }

  /** What the account relies on beyond the present state, so that it can be kept over
      a power loss that brings back an earlier one. */
  ghost predicate Booked(d: Disk, live: set<nat>, next: nat) {
    Numbered(d, live, next) && FinalsHold(d, live) && OneFinal(d.ledger) && RecordedArePublished(d.ledger)
  }

  /** A run session, started from `base`: `dirty` once it has marked the store,
      `sealed` once the shutdown barrier is up and no command is dispatched any more. */
  datatype Session = Session(run: RunId, base: Option<GenerationId>, dirty: bool, sealed: bool)

  ghost predicate SessionOk(d: Disk, session: Option<Session>) {
    session.Some? ==>
      && RecordOf(d.view).Some? && RecordOf(d.view).value.phase.Run() == Some(session.value.run)
      && HasDisk(State(d))
      && (session.value.dirty ==> RecordOf(d.view).value.phase.Dirty?)
      && (!session.value.sealed ==> forall g :: !FinalOf(d.ledger, session.value.run, g))
  }

  predicate HasDisk(s: Option<Instance>) {
    && s.Some? && s.value.open.Some?
    && ROOTFS in s.value.open.value.files && s.value.open.value.files[ROOTFS].Data?
  }

  // ----------------------------------------------------------- the present state

  lemma OneRoll(d: Disk, g: GenerationId, w: nat)
    requires RollsTo(d, g)
    ensures Kept(d, w) <==> w in Writes(PublishedPayload(d.ledger, g))
  {
    hide RecordOf, IsFinal, PublishedPayload, Writes;
    forall h | RollsTo(d, h) ensures h == g {}
  }

  /** With one final snapshot per run, any in place is the one recovery rolls to. */
  lemma FinalRolls(d: Disk, q: RunId, g: GenerationId)
    requires OneFinal(d.ledger) && RecordOf(d.view).Some? && RecordOf(d.view).value.phase.Run() == Some(q)
    requires IsFinal(d, q, g)
    ensures RollsTo(d, g)
  {
    forall h | IsFinal(d, q, h) ensures h == g { assert FinalOf(d.ledger, q, h) && FinalOf(d.ledger, q, g); }
  }

  lemma KeptWhenStopped(d: Disk, w: nat)
    requires RecordOf(d.view).Some? && RecordOf(d.view).value.phase == Stopped
    ensures Kept(d, w) <==> State(d).value.current.Some? && w in Writes(State(d).value.current.value)
  {
    hide RecordOf, PublishedPayload, Writes, Checkpoints;
  }

  /** Kept is what recovery keeps: whatever it did, the saved state then has exactly the
      writes that were kept before. */
  lemma RecoveryKeeps(a: Disk, b: Disk, how: Recovery, w: nat)
    requires Recovered(a, b, how)
    ensures Kept(b, w) <==> Kept(a, w)
    ensures Kept(b, w) <==> State(b).value.current.Some? && w in Writes(State(b).value.current.value)
  {
    hide RecordOf, IsFinal, PublishedPayload, Writes, Checkpoints, RunFiles;
    KeptWhenStopped(b, w);
    if how.RolledForward? { OneRoll(a, how.id, w); }
  }

  lemma FinalIsPublished(d: Disk, q: RunId, g: GenerationId)
    ensures IsFinal(d, q, g) ==> FinalOf(d.ledger, q, g)
  {
  }

  /** Everything on the account is kept. */
  lemma SafeIsKept(d: Disk, live: set<nat>, next: nat)
    requires CrashSafe(d) && SafeFor(State(d), live) && Booked(d, live, next)
    ensures AllKept(d, live)
  {
    hide CrashSafe, Booked, RecordOf, PublishedPayload, Writes, Checkpoints, IsFinal;
    forall w | w in live ensures Kept(d, w) {
      if g :| RollsTo(d, g) {
        FinalIsPublished(d, RecordOf(d.view).value.phase.Run().value, g);
        FinalHasAll(d, live, RecordOf(d.view).value.phase.Run().value, g, next);
        OneRoll(d, g, w);
      } else {
        assert Visible(State(d).value, w);
      }
    }
  }

  /** Steps that leave the instance stopped with everything on the account saved. */
  lemma SafeStopped(s: Option<Instance>, live: set<nat>)
    requires s.Some? && s.value.open.None?
    requires live == {} || (s.value.current.Some? && live <= Writes(s.value.current.value))
    ensures SafeFor(s, live)
  {
    hide Writes;
  }

  /** With no dirty run open, everything on the account is in the saved state. */
  lemma SavedWhenNotDirty(i: Instance, live: set<nat>)
    requires AckSafe(Some(i), live) && (i.open.None? || !i.open.value.dirty)
    ensures live == {} || (i.current.Some? && live <= Writes(i.current.value))
  {
    hide Writes;
    if w :| w in live { assert Visible(i, w); }
    forall w | w in live ensures i.current.Some? && w in Writes(i.current.value) { assert Visible(i, w); }
  }

  /** Nothing goes from the open run's disk; and nothing from the saved state, nor from sight
      with a dirty run, unless the open run's disk is saved. */
  ghost predicate GivesNothingUp(i: Instance, i': Instance) {
    && (i'.open.Some? ==> i.open.Some? && Writes(i.open.value.files) <= Writes(i'.open.value.files))
    && (|| (i'.current == i.current && (i.open.Some? && i.open.value.dirty ==> i'.open.Some? && i'.open.value.dirty))
        || (i.open.Some? && i'.current.Some? && Writes(i.open.value.files) <= Writes(i'.current.value))
        || (i.open.None? && i.current.Some? && i'.current.Some? && Writes(i.current.value) <= Writes(i'.current.value)))
  }

  /** Then the account stays safe. */
  lemma SafeAfter(i: Instance, i': Instance, live: set<nat>)
    requires SafeFor(Some(i), live) && GivesNothingUp(i, i')
    ensures SafeFor(Some(i'), live)
  {
    hide Writes;
    forall w | w in live ensures Visible(i', w) { assert Visible(i, w); }
  }

  /** That is so for the operations by which the user gives nothing up. */
  lemma OpSafe(a: Disk, b: Disk, live: set<nat>)
    requires SafeFor(State(a), live)
    ensures forall run :: Dirtied(a, b, run) ==> SafeFor(State(b), live)
    ensures forall run, g :: Advanced(a, b, run, g) && Writes(PublishedPayload(a.ledger, g)) == OpenWrites(a) ==> SafeFor(State(b), live)
    ensures Closed(a, b) && !RecordOf(a.view).value.phase.Dirty? ==> SafeFor(State(b), live)
    ensures Salvaged(a, b) ==> SafeFor(State(b), live)
    ensures MemoryDropped(a, b) && RecordOf(a.view).value.phase == Stopped ==> SafeFor(State(b), live)
    ensures forall c :: Forgotten(a, b, c) ==> SafeFor(State(b), live)
    ensures forall ref :: Checkpointed(a, b, ref) ==> SafeFor(State(b), live)
  {
    hide RecordOf, PublishedPayload, Checkpoints, RunFiles, SafeFor, HasMemory, Writes;
    PhaseOfState(a);
    if State(a).Some? && State(b).Some? {
      var i, i' := State(a).value, State(b).value;
      if i.open.Some? { CopyWrites(i.open.value.files); }
      if i.current.Some? { CopyWrites(i.current.value); }
      if GivesNothingUp(i, i') { SafeAfter(i, i', live); }
    }
  }

  /** The guest writes; the write may be acknowledged if the run is marked dirty. */
  lemma WroteSafe(a: Disk, b: Disk, live: set<nat>, run: RunId, w: nat, ack: bool)
    requires SafeFor(State(a), live) && Wrote(a, b, run, w)
    requires ack ==> RecordOf(a.view).value.phase.Dirty?
    ensures SafeFor(State(b), if ack then live + {w} else live)
  {
    hide RecordOf, PublishedPayload, Checkpoints, Payload;
    PhaseOfState(a);
    var live' := if ack then live + {w} else live;
    forall x | x in live' ensures Visible(State(b).value, x) {
      if x in live { assert Visible(State(a).value, x); }
    }
  }

  /** A capture of the run's disk beside the files of its memory: what `capture_vm_state`
      stages. */
  function Captured(d: Disk, run: RunId, memory: Files): Files {
    (map n | n in memory && memory[n].Data? :: memory[n]) + DiskOnly(RunFiles(d, run))
  }

  /** `saved` is the run's disk and share state, with the regular files of `memory` that they do
      not replace, and nothing else. */
  ghost predicate IsCapture(saved: Files, memory: Files, run: Files) {
    && ROOTFS in run && ROOTFS in saved && saved[ROOTFS] == run[ROOTFS]
    && (HOST_SHARE_STATE in run ==> HOST_SHARE_STATE in saved && saved[HOST_SHARE_STATE] == run[HOST_SHARE_STATE])
    && forall n :: n != ROOTFS && (n == HOST_SHARE_STATE ==> n !in run) ==>
         && (n in saved <==> n in memory && memory[n].Data? && n != MANIFEST && n != PIN)
         && (n in saved ==> saved[n] == memory[n])
  }

  lemma CaptureHolds(d: Disk, run: RunId, memory: Files)
    requires RecordOf(d.view).Some? && RecordOf(d.view).value.phase.Run() == Some(run)
    requires HasDisk(State(d))
    ensures Writes(Payload(Captured(d, run, memory))) == Writes(State(d).value.open.value.files) == Held(d.view, run)
    ensures ROOTFS in ManifestFiles(Captured(d, run, memory))
    ensures IsCapture(Payload(Captured(d, run, memory)), memory, State(d).value.open.value.files)
  {
    hide RecordOf, Checkpoints;
    CaptureMeans(d, run, memory);
    hide IsCapture;
  }

  lemma CaptureMeans(d: Disk, run: RunId, memory: Files)
    requires HasRootfs(RunFiles(d, run))
    ensures IsCapture(Payload(Captured(d, run, memory)), memory, RunFiles(d, run))
  {
    hide RunFiles;
  }

  lemma BeganSafe(a: Disk, b: Disk, live: set<nat>, from: Option<GenerationId>, run: RunId)
    requires SafeFor(State(a), live) && Began(a, b, from, run)
    requires RecordOf(a.view).Some? && RecordOf(a.view).value.phase == Stopped
    ensures SafeFor(State(b), live * Writes(BaseFiles(a, from)))
    ensures from.None? ==> live * Writes(BaseFiles(a, from)) == live
  {
    hide RecordOf, PublishedPayload, Writes, Checkpoints;
    PhaseOfState(a);
    SavedWhenNotDirty(State(a).value, live);
    if from.None? { BaseIsCurrent(a); }
  }

  lemma CurrentIs(d: Disk, latest: GenerationId)
    requires RecordOf(d.view).Some? && RecordOf(d.view).value.latest == Some(latest)
    ensures State(d).Some? && State(d).value.current == Some(PublishedPayload(d.ledger, latest))
  {
  }

  /** Whether the run directory holds a disk to boot from. */
  predicate BootableRun(d: Disk, run: RunId) {
    ROOTFS in RunFiles(d, run) && RunFiles(d, run)[ROOTFS].Data?
  }

  /** The session's run is open, clean, on a private copy of its base. */
  ghost predicate RunsFrom(d: Disk, session: Session) {
    && State(d).Some? && session.base.Some?
    && State(d).value.open == Some(OpenRun(session.run, false, PublishedPayload(d.ledger, session.base.value)))
  }

  lemma RunsFromBase(a: Disk, b: Disk, from: Option<GenerationId>, run: RunId)
    requires Began(a, b, from, run) && BootableRun(b, run) && a.ledger.published == b.ledger.published
    ensures RunsFrom(b, Session(run, if from.Some? then from else RecordOf(b.view).value.latest, false, false))
  {
    hide Checkpoints, Payload;
  }

  /** A run started from a generation in place has a disk to boot from. */
  lemma BaseBoots(a: Disk, b: Disk, from: Option<GenerationId>, run: RunId)
    requires Valid(a) && Began(a, b, from, run) && (from.Some? ==> IsInPlace(a.view, from.value))
    ensures from.Some? || RecordOf(a.view).value.latest.Some? ==> BootableRun(b, run)
  {
    var base := if from.Some? then from else RecordOf(a.view).value.latest;
    if base.Some? {
      if from.None? { LatestIsInPlace(a); }
      assert Complete(a.view, a.ledger, base.value);
      hide CrashSafe, Checkpoints;
    }
  }

  lemma NothingSaved(d: Disk)
    requires RecordOf(d.view).Some?
    ensures RecordOf(d.view).value.latest.None? ==> Abs(d).current.None?
  {
  }

  /** Recovery does not take a saved state away. */
  lemma RecoveredHasLatest(a: Disk, b: Disk, how: Recovery)
    requires Recovered(a, b, how)
    ensures RecordOf(a.view).Some? && (RecordOf(b.view).value.latest.None? ==> RecordOf(a.view).value.latest.None?)
  {
    hide State, IsFinal;
  }

  lemma BaseIsCurrent(d: Disk)
    requires RecordOf(d.view).Some?
    ensures State(d).value.current.Some? ==> BaseFiles(d, None) == State(d).value.current.value
  {
  }

  /** Recovery loses nothing: the final snapshot it may roll forward to holds the
      whole account. */
  lemma RecoveredSafe(a: Disk, b: Disk, live: set<nat>, next: nat, how: Recovery)
    requires CrashSafe(a) && SafeFor(State(a), live) && Booked(a, live, next) && Recovered(a, b, how)
    ensures SafeFor(State(b), live)
  {
    hide CrashSafe, SafeFor, Booked, State, Recovered, RecordOf, Kept, Writes;
    SafeIsKept(a, live, next);
    RecoveredStops(a, b, how);
    PhaseOfState(b);
    if w :| w in live { RecoveryKeeps(a, b, how, w); }
    forall w | w in live ensures State(b).value.current.Some? && w in Writes(State(b).value.current.value) {
      RecoveryKeeps(a, b, how, w);
    }
    SafeStopped(State(b), live);
  }

  lemma FinalHasAll(d: Disk, live: set<nat>, q: RunId, g: GenerationId, next: nat)
    requires CrashSafe(d) && AckSafe(State(d), live) && Booked(d, live, next)
    requires RecordOf(d.view).Some? && RecordOf(d.view).value.phase.Run() == Some(q) && FinalOf(d.ledger, q, g)
    ensures live <= Writes(PublishedPayload(d.ledger, g))
  {
    hide CrashSafe, Checkpoints, Payload, RunRecords;
    assert FinalHolds(d, live, q, g);
    RecordedRun(d);
    forall w | w in live ensures w in Writes(PublishedPayload(d.ledger, g)) {
      assert Visible(State(d).value, w);
      var latest := RecordOf(d.view).value.latest;
      if latest.Some? && w in Writes(PublishedPayload(d.ledger, latest.value)) {
        assert (q, Some(latest.value)) in RunRecords(d.ledger.records);
      } else {
        assert w in Held(d.view, q);
      }
    }
  }

  // ----------------------------------------------------------------- the account

  /** Whatever was published is no final snapshot and has no number still to come. */
  ghost predicate NoNewFinals(a: Ledger, b: Ledger, next: nat) {
    forall g :: g in b.published && g !in a.published ==>
      !OriginOf(b, g).Snapshot? && AllBelow(Writes(PublishedPayload(b, g)), next)
  }

  lemma SamePublished(a: Ledger, b: Ledger)
    requires a.published == b.published
    ensures forall next :: NoNewFinals(a, b, next)
    ensures forall g :: PublishedPayload(b, g) == PublishedPayload(a, g)
    ensures forall q, g :: FinalOf(b, q, g) <==> FinalOf(a, q, g)
  {
  }

  lemma PublishedBelow(a: Ledger, b: Ledger, files: Files, next: nat)
    requires OnlyAdds(a, b, files) && AllBelow(Writes(Payload(files)), next)
    ensures NoNewFinals(a, b, next)
  {
    hide Payload, Writes;
  }

  lemma CapturedBelow(a: Disk, b: Disk, parent: Option<GenerationId>, origin: Origin, files: Files, next: nat)
    requires NewGenerationOf(a, b, parent, origin, files) && !origin.Snapshot? && AllBelow(Writes(Payload(files)), next)
    ensures NoNewFinals(a.ledger, b.ledger, next)
  {
    hide NewGenerationOf, OnlyAdds;
    AddsOne(a, b, b, parent, origin, files);
    PublishedBelow(a.ledger, b.ledger, files, next);
  }

  lemma NumberedKept(a: Disk, b: Disk, live: set<nat>, next: nat)
    requires Numbered(a, live, next) && Grows(a.ledger, b.ledger) && NoNewFinals(a.ledger, b.ledger, next)
    requires forall q :: Held(b.view, q) <= Held(a.view, q)
    ensures Numbered(b, live, next)
  {
    hide Grows, Payload, Writes, Held;
    forall g ensures AllBelow(Writes(PublishedPayload(b.ledger, g)), next) {
      if g in a.ledger.published {
        PayloadKept(a.ledger, b.ledger, g);
      } else if g !in b.ledger.published {
        NoPayload(b.ledger, g);
      }
    }
    forall q ensures AllBelow(Held(b.view, q), next) { assert AllBelow(Held(a.view, q), next); }
  }

  lemma NoPayload(a: Ledger, g: GenerationId)
    requires g !in a.published
    ensures Writes(PublishedPayload(a, g)) == {}
  {
  }

  lemma RecordedKept(a: Ledger, b: Ledger)
    requires RecordedArePublished(a) && Grows(a, b) && RunRecords(b.records) == RunRecords(a.records)
    ensures RecordedArePublished(b)
  {
    hide RunRecords;
  }

  lemma FinalHoldsKept(a: Disk, b: Disk, live: set<nat>, q: RunId, g: GenerationId)
    requires FinalHolds(a, live, q, g) && Grows(a.ledger, b.ledger) && g in a.ledger.published
    requires RecordedArePublished(a.ledger)
    requires Held(b.view, q) <= Held(a.view, q)
    requires RunRecords(b.ledger.records) == RunRecords(a.ledger.records)
    ensures FinalHolds(b, live, q, g)
  {
    hide Grows, PublishedPayload, Writes, Held, RunRecords;
    PayloadKept(a.ledger, b.ledger, g);
    forall h | (q, Some(h)) in RunRecords(b.ledger.records)
      ensures live * Writes(PublishedPayload(b.ledger, h)) <= Writes(PublishedPayload(b.ledger, g))
    {
      PayloadKept(a.ledger, b.ledger, h);
    }
  }

  lemma HeldSame(a: Fs, b: Fs)
    requires Images(a) == Images(b)
    ensures forall q :: Held(b, q) == Held(a, q)
  {
    hide Images;
    forall q ensures Held(b, q) == Held(a, q) {
      ImageIs(a, q);
      ImageIs(b, q);
    }
  }

  /** Steps that change no run's disk, record no run anew and publish no final snapshot. */
  lemma BookKept(a: Disk, b: Disk, live: set<nat>, next: nat)
    requires Booked(a, live, next) && Later(a, b) && SameRuns(a, b)
    requires a.ledger.published == b.ledger.published || NoNewFinals(a.ledger, b.ledger, next)
    ensures Booked(b, live, next)
  {
    hide Later, Grows, PublishedPayload, Writes, Held, RunRecords, Images, OriginOf;
    if a.ledger.published == b.ledger.published { SamePublished(a.ledger, b.ledger); }
    HeldSame(a.view, b.view);
    NumberedKept(a, b, live, next);
    RecordedKept(a.ledger, b.ledger);
    forall q, g | FinalOf(b.ledger, q, g) ensures FinalOf(a.ledger, q, g) && FinalHolds(b, live, q, g) {
      PayloadKept(a.ledger, b.ledger, g);
      FinalHoldsKept(a, b, live, q, g);
    }
  }

  lemma BookFewer(d: Disk, live: set<nat>, fewer: set<nat>, next: nat)
    requires Booked(d, live, next) && fewer <= live
    ensures Booked(d, fewer, next)
  {
    hide PublishedPayload, Writes, Held, RunRecords, FinalOf;
    forall q: RunId, g: GenerationId | FinalOf(d.ledger, q, g) ensures FinalHolds(d, fewer, q, g) {
      assert FinalHolds(d, live, q, g);
      forall h | (q, Some(h)) in RunRecords(d.ledger.records)
        ensures fewer * Writes(PublishedPayload(d.ledger, h)) <= Writes(PublishedPayload(d.ledger, g))
      {
        assert live * Writes(PublishedPayload(d.ledger, h)) <= Writes(PublishedPayload(d.ledger, g));
      }
    }
  }

  lemma BookNext(d: Disk, live: set<nat>, next: nat, next': nat)
    requires Booked(d, live, next) && next <= next'
    ensures Booked(d, live, next')
  {
    hide PublishedPayload, Writes, Held, RunRecords, FinalsHold;
    forall g ensures AllBelow(Writes(PublishedPayload(d.ledger, g)), next') {
      assert AllBelow(Writes(PublishedPayload(d.ledger, g)), next);
    }
    forall q ensures AllBelow(Held(d.view, q), next') { assert AllBelow(Held(d.view, q), next); }
  }

  /** One more write on a run's disk, with the next number; it may join the account
      if the run has no final snapshot yet. */
  lemma BookWrote(a: Disk, b: Disk, live: set<nat>, next: nat, run: RunId, ack: bool)
    requires Booked(a, live, next) && b.ledger == a.ledger
    requires Images(b.view) - {run} == Images(a.view) - {run} && ImageOn(b.view, run) == ImageOn(a.view, run) + [next]
    requires ack ==> forall g :: !FinalOf(a.ledger, run, g)
    ensures Booked(b, if ack then live + {next} else live, next + 1)
  {
    hide PublishedPayload, Writes, Images, RunRecords, FinalOf;
    var live' := if ack then live + {next} else live;
    forall q ensures Held(b.view, q) <= Held(a.view, q) + (if q == run then {next} else {}) {
      if q != run { OtherImage(a.view, b.view, run, q); }
    }
    forall g ensures AllBelow(Writes(PublishedPayload(b.ledger, g)), next + 1) {
      assert AllBelow(Writes(PublishedPayload(a.ledger, g)), next);
    }
    forall q ensures AllBelow(Held(b.view, q), next + 1) { assert AllBelow(Held(a.view, q), next); }
    forall q: RunId, g: GenerationId | FinalOf(b.ledger, q, g) ensures FinalHolds(b, live', q, g) {
      assert FinalHolds(a, live, q, g);
      assert next !in Held(a.view, q) by { assert AllBelow(Held(a.view, q), next); }
      assert live' * Held(b.view, q) <= live * Held(a.view, q);
      forall h | (q, Some(h)) in RunRecords(b.ledger.records)
        ensures live' * Writes(PublishedPayload(b.ledger, h)) <= Writes(PublishedPayload(b.ledger, g))
      {
        assert AllBelow(Writes(PublishedPayload(a.ledger, h)), next);
        assert live' * Writes(PublishedPayload(b.ledger, h)) <= live * Writes(PublishedPayload(a.ledger, h));
      }
    }
  }

  lemma OtherImage(a: Fs, b: Fs, run: RunId, q: RunId)
    requires Images(b) - {run} == Images(a) - {run} && q != run
    ensures ImageOn(b, q) == ImageOn(a, q)
  {
    hide Images;
    ImageIs(a, q);
    ImageIs(b, q);
    assert q in Images(a) <==> q in Images(a) - {run};
    assert q in Images(b) <==> q in Images(b) - {run};
  }

  /** A new run: it has no final snapshot, and its disk is a copy of its base. */
  lemma BookBegan(a: Disk, b: Disk, live: set<nat>, next: nat)
    requires CrashSafe(a) && RecordOf(a.view).Some? && Booked(a, live, next) && Later(a, b)
    requires a.ledger.published == b.ledger.published
    requires var q := a.ledger.nextRun;
             && Images(b.view) - {q} == Images(a.view) - {q} && AllBelow(Held(b.view, q), next)
             && RunRecords(b.ledger.records) <= RunRecords(a.ledger.records) + {(q, RecordOf(a.view).value.latest)}
    ensures Booked(b, live, next)
  {
    hide CrashSafe, Later, Grows, PublishedPayload, Writes, Held, RunRecords, Images, RecordOf, FinalOf, AllBelow;
    var run := a.ledger.nextRun;
    if RecordOf(a.view).value.latest.Some? { LatestIsOld(a, RecordOf(a.view).value.latest.value); }
    SamePublished(a.ledger, b.ledger);
    forall q | q != run ensures Held(b.view, q) == Held(a.view, q) { OtherHeld(a.view, b.view, run, q); }
    forall g ensures AllBelow(Writes(PublishedPayload(b.ledger, g)), next) {
      assert AllBelow(Writes(PublishedPayload(a.ledger, g)), next);
    }
    forall q ensures AllBelow(Held(b.view, q), next) { assert AllBelow(Held(a.view, q), next); }
    FreshRunHasNoFinals(a);
    forall q: RunId, g: GenerationId | FinalOf(b.ledger, q, g) ensures FinalHolds(b, live, q, g) {
      assert FinalHolds(a, live, q, g);
    }
  }

  lemma OtherHeld(a: Fs, b: Fs, run: RunId, q: RunId)
    requires Images(b) - {run} == Images(a) - {run} && q != run
    ensures Held(b, q) == Held(a, q)
  {
    hide Images;
    OtherImage(a, b, run, q);
  }

  lemma FreshRunHasNoFinals(a: Disk)
    requires CrashSafe(a)
    ensures forall g :: !FinalOf(a.ledger, a.ledger.nextRun, g)
  {
    forall g | g in a.ledger.published ensures !FinalOf(a.ledger, a.ledger.nextRun, g) {
      assert WellFormed(g, a.ledger.published[g]) && Started(a.ledger.published[g], a.ledger.nextRun);
    }
  }

  /** The saved state recorded beside a run moves on to a capture of its disk. */
  lemma BookAdvanced(a: Disk, b: Disk, live: set<nat>, next: nat, run: RunId, g: GenerationId)
    requires Booked(a, live, next) && Later(a, b) && a.ledger.published == b.ledger.published && g in a.ledger.published
    requires Images(b.view) == Images(a.view) && Writes(PublishedPayload(a.ledger, g)) == Held(a.view, run)
    requires RunRecords(b.ledger.records) <= RunRecords(a.ledger.records) + {(run, Some(g))}
    ensures Booked(b, live, next)
  {
    hide Later, Grows, Payload, Writes, Held, RunRecords, Images;
    HeldSame(a.view, b.view);
    SamePublished(a.ledger, b.ledger);
    forall q, f | FinalOf(b.ledger, q, f) ensures FinalOf(a.ledger, q, f) && FinalHolds(b, live, q, f) {
      assert FinalHolds(a, live, q, f);
    }
  }

  /** Publishing the final snapshot: it has the whole account. */
  lemma BookFinal(a: Disk, b: Disk, live: set<nat>, next: nat, parent: Option<GenerationId>, run: RunId, files: Files)
    requires CrashSafe(a) && Booked(a, live, next) && Later(a, b) && NewGenerationOf(a, b, parent, Snapshot(run), files)
    requires SameRuns(a, b)
    requires live <= Writes(Payload(files)) && AllBelow(Writes(Payload(files)), next)
    requires forall g :: !FinalOf(a.ledger, run, g)
    ensures Booked(b, live, next)
  {
    hide CrashSafe, Later, Grows, Payload, Writes, Held, RunRecords, Images, State, RecordOf, SameRefs, SameFinals,
         PublishedFiles;
    var made := a.ledger.nextGen;
    HeldSame(a.view, b.view);
    NextNotInPlace(a);
    PublishKeepsPayload(made, parent, Snapshot(run), files);
    PublishedOrigin(b.ledger, made, parent, Snapshot(run), files);
    forall g ensures AllBelow(Writes(PublishedPayload(b.ledger, g)), next) {
      assert AllBelow(Writes(PublishedPayload(a.ledger, g)), next);
    }
    RecordedKept(a.ledger, b.ledger);
    forall q, g | FinalOf(b.ledger, q, g)
      ensures FinalOf(a.ledger, q, g) || (g == made && q == run)
      ensures FinalHolds(b, live, q, g)
    {
      if g in a.ledger.published {
        PayloadKept(a.ledger, b.ledger, g);
        FinalHoldsKept(a, b, live, q, g);
      }
    }
  }

  lemma PublishedOrigin(a: Ledger, g: GenerationId, parent: Option<GenerationId>, origin: Origin, files: Files)
    ensures g in a.published && a.published[g] == PublishedFiles(g, parent, origin, files) ==> OriginOf(a, g) == origin
  {
  }

  /** A power loss leaves every run's disk as it was at some earlier moment. */
  lemma BookRebooted(d: Disk, survivor: Fs, live: set<nat>, next: nat)
    requires CrashSafe(d) && Booked(d, live, next) && CrashState(d.base, d.log, d.journaled, survivor)
    ensures Booked(Rebooted(d, survivor), live, next)
  {
    hide CrashSafe, CrashState, Grows, Payload, Writes, RunRecords, Held, FinalOf;
    var now := Rebooted(d, survivor);
    forall q ensures Held(now.view, q) <= Held(d.view, q) { HeldBefore(d, survivor, q); }
    GrowsSelf(d.ledger);
    forall q, g | FinalOf(now.ledger, q, g) ensures FinalHolds(now, live, q, g) {
      assert FinalOf(d.ledger, q, g);
      assert FinalHolds(d, live, q, g);
    }
    forall q ensures AllBelow(Held(now.view, q), next) { assert AllBelow(Held(d.view, q), next); }
  }

  lemma HeldBefore(d: Disk, survivor: Fs, q: RunId)
    requires CrashSafe(d) && CrashState(d.base, d.log, d.journaled, survivor)
    ensures Held(survivor, q) <= Held(d.view, q)
  {
    hide Safe, LedgerOk, ImagesGrow, CrashState;
    CrashShowsEarlierImage(d.base, d.log, d.journaled, survivor, q);
  }

  lemma NewStoreIsBooked(d: Disk)
    requires d.view == map[] && d.ledger == Ledger(map[], map[], map[], map[], 0, 0, 0)
    ensures Booked(d, {}, 0)
  {
  }

  // ------------------------------------------------------------- explicit choices

  /** What is left of the account: what recovery can still bring back. */
  ghost function KeptOf(d: Disk, live: set<nat>): set<nat> { set w | w in live && Kept(d, w) }

  lemma NothingGoes(d: Disk, live: set<nat>)
    requires AllKept(d, live)
    ensures KeptOf(d, live) == live
  {
    hide Kept;
  }

  /** The writes in the saved state. */
  function SavedWrites(d: Disk): set<nat> {
    if State(d).Some? && State(d).value.current.Some? then Writes(State(d).value.current.value) else {}
  }

  /** The writes on the open run's disk. */
  function OpenWrites(d: Disk): set<nat> {
    if State(d).Some? && State(d).value.open.Some? then Writes(State(d).value.open.value.files) else {}
  }

  lemma KeptIsSaved(d: Disk, live: set<nat>)
    requires State(d).Some? && State(d).value.open.None?
    ensures KeptOf(d, live) == live * SavedWrites(d)
  {
    hide Kept, State, Writes, RecordOf;
    PhaseOfState(d);
    forall w ensures Kept(d, w) <==> w in SavedWrites(d) { KeptWhenStopped(d, w); }
  }

  /** A close leaves what was saved. */
  lemma SavedAfter(a: Disk, b: Disk)
    ensures Closed(a, b) ==> SavedWrites(b) == SavedWrites(a)
  {
    hide Checkpoints, RecordOf, RunFiles, PublishedPayload;
  }

  /** The next number above every write of a disk image from elsewhere. */
  function Above(ws: seq<nat>, n: nat): (m: nat)
    ensures n <= m && forall w :: w in ws ==> w < m
  {
    if ws == [] then n
    else
      var rest := Above(ws[1..], n);
      assert forall w :: w in ws ==> w == ws[0] || w in ws[1..];
      if ws[0] < rest then rest else ws[0] + 1
  }

  function AboveFiles(files: Files, n: nat): (m: nat)
    ensures n <= m && AllBelow(Writes(files), m)
  {
    if ROOTFS in files && files[ROOTFS].Data? then Above(files[ROOTFS].writes, n) else n
  }

  function AboveEdits(edits: seq<Edit>, n: nat): (m: nat)
    ensures n <= m
  {
    if edits == [] then n
    else
      var rest := AboveEdits(edits[..|edits| - 1], n);
      var last := edits[|edits| - 1];
      if last.PutFile? && last.content.Data? then Above(last.content.writes, rest) else rest
  }

  lemma {:induction false} EditsBelow(files: Files, edits: seq<Edit>, n: nat)
    requires AllBelow(Writes(files), n)
    ensures AllBelow(Writes(AfterEdits(files, edits)), AboveEdits(edits, n))
  {
    if edits != [] {
      EditsBelow(files, edits[..|edits| - 1], n);
    }
  }

  lemma CopyWrites(files: Files)
    ensures Writes(Payload(files)) == Writes(DiskOnly(files)) == Writes(Payload(DiskOnly(files))) == Writes(files)
  {
  }

  // ------------------------------------------------------------------- power losses

  /** A write that a power loss back to `past` leaves for recovery to find on the disk
      that comes up: in the final snapshot that was in place then of the run recorded
      then, or if there was none, in the saved state recorded then, or on what survives
      of the disk of the run that was dirty then. */
  ghost predicate StillThere(past: Disk, now: Disk, w: nat) {
    if exists g :: RollsTo(past, g) then exists g :: RollsTo(past, g) && w in Writes(PublishedPayload(past.ledger, g))
    else
      && RecordOf(past.view).Some?
      && var rec := RecordOf(past.view).value;
         || (rec.latest.Some? && w in Writes(PublishedPayload(past.ledger, rec.latest.value)))
         || (rec.phase.Dirty? && w in Writes(RunFiles(now, rec.phase.run)))
  }

  lemma LossMoment(d: Disk, survivor: Fs) returns (k: nat)
    requires CrashSafe(d) && d.journaled && CrashState(d.base, d.log, d.journaled, survivor)
    ensures var now := Rebooted(d, survivor);
            && k <= |d.log| && SameCommitted(now, Past(d, k))
            && forall w :: Kept(now, w) <==> StillThere(Past(d, k), now, w)
  {
    hide CrashSafe, CrashState, Writes, Checkpoints, PublishedPayload, RunFiles, RecordOf, SameRefs, View, IsFinal;
    k := PowerLossShowsOneMoment(d, survivor);
    var now, past := Rebooted(d, survivor), Past(d, k);
    forall g ensures RollsTo(now, g) <==> RollsTo(past, g) {}
  }

  /** The guest's write is the last thing on the log. */
  ghost predicate WroteLast(a: Disk, b: Disk, run: RunId, w: nat) {
    b == Written(a, RunFile(run, ROOTFS), FileVal(Data(ImageOn(a.view, run) + [w])), a.ledger)
  }

  lemma NewIsUnkept(d: Disk, live: set<nat>, w: nat)
    requires Booked(d, live, w)
    ensures !Kept(d, w)
  {
    hide Checkpoints, Payload, FinalsHold, RunRecords, OneFinal, IsFinal;
    forall g ensures w !in Writes(PublishedPayload(d.ledger, g)) {
      assert AllBelow(Writes(PublishedPayload(d.ledger, g)), w);
    }
    if State(d).Some? && State(d).value.open.Some? { assert AllBelow(Held(d.view, State(d).value.open.value.run), w); }
  }

  lemma AllButTheLast(a: Disk, b: Disk, run: RunId, w: nat)
    requires a.view == View(a.base, a.log) && WroteLast(a, b, run, w)
    ensures |b.log| == |a.log| + 1
    ensures Allowed(b.log, Upto(|a.log|), b.journaled) && Survive(b.base, b.log, Upto(|a.log|)) == a.view
  {
    var keep := Upto(|a.log|);
    assert b.log[..|a.log|] == a.log;
    AllSurvive(a.base, a.log, |a.log|);
    forall i: nat, c: nat, j: nat | Covers(b.log, i, c) && c < j && IsPut(b.log, j) && j in keep ensures i in keep {}
  }

  /** What recovery makes of a disk depends on nothing the boot did. */
  lemma KeptByView(a: Disk, b: Disk, w: nat)
    requires b.view == a.view && b.ledger == a.ledger
    ensures Kept(b, w) <==> Kept(a, w)
  {
    hide RecordOf, Writes, PublishedPayload;
    assert State(b) == State(a);
    forall q, g ensures IsFinal(a, q, g) <==> IsFinal(b, q, g) {}
    forall g ensures RollsTo(a, g) <==> RollsTo(b, g) {}
  }

  // ------------------------------------------------ an operation took effect, or not

  lemma RestoredMeans(a: Disk, b: Disk, target: GenerationId, before: CheckpointRef, previous: GenerationId)
    requires Restored(a, b, target, before, previous)
    ensures RecordOf(b.view) == Some(Record(Some(target), Stopped))
  {
  }

  /** The operations that leave no run open. */
  lemma AllSaved(s: Option<Instance>, d: Disk, live: set<nat>)
    requires s == State(d) && SafeFor(s, live) && s.Some? && s.value.open.None?
    ensures live <= SavedWrites(d)
  {
    hide Writes;
    SavedWhenNotDirty(s.value, live);
  }

  lemma ThenStopped(a: Disk, b: Disk)
    ensures Closed(a, b) || Salvaged(a, b) || MemoryDropped(a, b) || (RecordOf(b.view).Some? && RecordOf(b.view).value.phase == Stopped) ==>
              State(b).Some? && State(b).value.open.None?
    ensures forall edits :: Derived(a, b, edits) ==> State(b).Some? && State(b).value.open.None?
  {
  }

  /** Without an instance nothing is on the account. */
  lemma NoneLive(s: Option<Instance>)
    ensures SafeFor(s, {}) && forall live :: SafeFor(None, live) ==> live == {}
  {
  }

  lemma AllOnRun(s: Option<Instance>, live: set<nat>)
    requires SafeFor(s, live) && HasDisk(s)
    ensures live <= Writes(s.value.open.value.files)
  {
  }

  lemma HeldIsBelow(d: Disk, live: set<nat>, next: nat, run: RunId)
    requires Booked(d, live, next)
    ensures AllBelow(Held(d.view, run), next)
  {
    hide FinalsHold, PublishedPayload, Writes, Held, RunRecords;
  }

  /** What the store copied had no number still to come. */
  lemma CopiesBelow(a: Disk, b: Disk, live: set<nat>, next: nat)
    requires Booked(a, live, next)
    ensures RecordOf(a.view).Some? && RecordOf(a.view).value.phase.Dirty? ==>
              OnlyAdds(a.ledger, b.ledger, DiskOnly(Abs(a).open.value.files)) ==> NoNewFinals(a.ledger, b.ledger, next)
    ensures RecordOf(a.view).Some? && RecordOf(a.view).value.latest.Some? ==>
              OnlyAdds(a.ledger, b.ledger, DiskOnly(Abs(a).current.value)) ==> NoNewFinals(a.ledger, b.ledger, next)
    ensures RecordOf(a.view).Some? && RecordOf(a.view).value.latest.Some? ==>
              forall edits :: OnlyAdds(a.ledger, b.ledger, AfterEdits(Abs(a).current.value, edits)) ==>
                NoNewFinals(a.ledger, b.ledger, AboveEdits(edits, next))
  {
    hide OnlyAdds, NoNewFinals, FinalsHold, RunRecords, Checkpoints, RecordOf, AfterEdits, AboveEdits, Payload;
    if RecordOf(a.view).Some? {
      var rec := RecordOf(a.view).value;
      if rec.phase.Dirty? {
        var files := RunFiles(a, rec.phase.run);
        assert AllBelow(Held(a.view, rec.phase.run), next);
        CopyWrites(files);
        if OnlyAdds(a.ledger, b.ledger, DiskOnly(files)) { PublishedBelow(a.ledger, b.ledger, DiskOnly(files), next); }
      }
      if rec.latest.Some? {
        var files := PublishedPayload(a.ledger, rec.latest.value);
        assert AllBelow(Writes(files), next);
        CopyWrites(files);
        if OnlyAdds(a.ledger, b.ledger, DiskOnly(files)) { PublishedBelow(a.ledger, b.ledger, DiskOnly(files), next); }
        forall edits | OnlyAdds(a.ledger, b.ledger, AfterEdits(files, edits))
          ensures NoNewFinals(a.ledger, b.ledger, AboveEdits(edits, next))
        {
          EditsBelow(files, edits, next);
          CopyWrites(AfterEdits(files, edits));
          PublishedBelow(a.ledger, b.ledger, AfterEdits(files, edits), AboveEdits(edits, next));
        }
      }
    }
  }

  /** The session goes on over what the store and the guest do in it. */
  lemma SessionAfter(a: Disk, b: Disk, session: Session)
    requires SessionOk(a, Some(session)) && a.ledger.published == b.ledger.published
    ensures Dirtied(a, b, session.run) ==> SessionOk(b, Some(session)) && SessionOk(b, Some(session.(dirty := true)))
    ensures forall g :: Advanced(a, b, session.run, g) ==> SessionOk(b, Some(session))
    ensures RecordOf(b.view) == RecordOf(a.view) && State(b) == State(a) ==> SessionOk(b, Some(session))
    ensures forall ref :: RecordOf(b.view) == RecordOf(a.view) && Checkpointed(a, b, ref) ==> SessionOk(b, Some(session))
    ensures forall w :: RecordOf(b.view) == RecordOf(a.view) && Wrote(a, b, session.run, w) ==> SessionOk(b, Some(session))
  {
    hide RecordOf, FinalOf, Checkpoints, PublishedPayload, RunFiles;
    SamePublished(a.ledger, b.ledger);
    PhaseOfState(a);
  }

  lemma DirtiedRecord(a: Disk, b: Disk, run: RunId)
    ensures Dirtied(a, b, run) ==> RecordOf(b.view) == Some(Record(RecordOf(a.view).value.latest, Dirty(run)))
  {
    hide RecordOf, State;
  }

  lemma AdvancedMeans(a: Disk, b: Disk, run: RunId, g: GenerationId)
    ensures Advanced(a, b, run, g) ==>
              && RecordOf(b.view) == Some(Record(Some(g), RecordOf(a.view).value.phase))
              && State(a).Some? && State(b).Some? && State(b).value.current == Some(PublishedPayload(a.ledger, g))
              && State(b).value.open == State(a).value.open
  {
    hide RecordOf, Checkpoints, PublishedPayload, RunFiles;
  }

  lemma CheckpointedHolds(a: Disk, b: Disk, ref: CheckpointRef)
    ensures Checkpointed(a, b, ref) && State(a).Some? ==>
              && State(b).Some? && ref.id in State(b).value.checkpoints
              && State(b).value.checkpoints[ref.id] == SavedState(ref.name, PublishedPayload(a.ledger, ref.generation))
  {
    hide RecordOf, Checkpoints, PublishedPayload, RunFiles;
  }

  lemma SessionHasDisk(d: Disk, session: Session)
    requires SessionOk(d, Some(session))
    ensures HasRootfs(RunFiles(d, session.run)) && RecordOf(d.view).Some?
    ensures RecordOf(d.view).value.phase == Running(session.run) || RecordOf(d.view).value.phase == Dirty(session.run)
  {
    hide RecordOf, Checkpoints, FinalOf;
  }

  lemma DiskIsThere(d: Disk, run: RunId)
    requires RecordOf(d.view).Some? && RecordOf(d.view).value.phase.Run() == Some(run) && HasDisk(State(d))
    ensures run in d.ledger.prepared && ROOTFS in d.ledger.prepared[run]
    ensures Get(d.view, RunFile(run, ROOTFS)).FileVal? && Get(d.view, RunFile(run, ROOTFS)).content.Data?
  {
    hide RecordOf, Checkpoints;
  }

  lemma WroteOnDisk(a: Disk, b: Disk, run: RunId, w: nat)
    requires Wrote(a, b, run, w) && RecordOf(a.view).value.phase.Dirty?
    ensures HasDisk(State(b)) && State(b).value.open.value.dirty && w in Writes(State(b).value.open.value.files)
  {
    hide Checkpoints, Current;
  }

  lemma SyncedNow(d: Disk, run: RunId)
    requires CrashSafe(d)
    ensures var d' := SyncedOn(d, RunFileObj(run, ROOTFS));
            SyncedImage(d'.base, d'.log, run) == ImageOn(d.view, run)
  {
    hide Safe, LedgerOk, ImagesGrow, View, DiskImage, Pending, LastSync;
    var d' := SyncedOn(d, RunFileObj(run, ROOTFS));
    SyncedLog(d, RunFileObj(run, ROOTFS));
    var b := LastSync(d'.log, RunFile(run, ROOTFS));
    assert d'.log[|d'.log| - 1] == Sync(ObjOf(RunFile(run, ROOTFS)));
    assert b == |d'.log| && d'.log[..b] == d'.log;
  }

  lemma SameView(a: Disk, b: Disk)
    requires b.view == a.view && b.ledger == a.ledger
    ensures State(b) == State(a) && OpenWrites(b) == OpenWrites(a) && SameRuns(a, b)
    ensures forall session :: SessionOk(a, session) ==> SessionOk(b, session)
  {
    hide Images, RunRecords, FinalOf, HasDisk;
  }

  /** Publishing a capture that is not final changes nothing for the session. */
  lemma CaptureKeeps(a: Disk, b: Disk, session: Option<Session>, parent: Option<GenerationId>, origin: Origin, files: Files)
    requires CrashSafe(a) && SessionOk(a, session) && Later(a, b)
    requires NewGenerationOf(a, b, parent, origin, files) && !origin.Snapshot?
    ensures SessionOk(b, session) && State(b) == State(a) && RecordOf(b.view) == RecordOf(a.view)
    ensures IsInPlace(b.view, a.ledger.nextGen) ==>
              a.ledger.nextGen in b.ledger.published && PublishedPayload(b.ledger, a.ledger.nextGen) == Payload(files)
  {
    hide CrashSafe, State, RecordOf, SameRefs, SameFinals, IsFinal, Payload, HasDisk, NewGenerationOf;
    NewGenerationKeeps(a, b, parent, origin, files);
    if session.Some? && !session.value.sealed {
      forall g ensures !FinalOf(b.ledger, session.value.run, g) { CaptureIsNotFinal(a, b, parent, origin, files, session.value.run, g); }
    }
    if IsInPlace(b.view, a.ledger.nextGen) { CaptureIs(a, b, parent, origin, files); }
  }

  lemma CaptureIsNotFinal(a: Disk, b: Disk, parent: Option<GenerationId>, origin: Origin, files: Files, run: RunId, g: GenerationId)
    requires Later(a, b) && NewGenerationOf(a, b, parent, origin, files) && !origin.Snapshot?
    requires !FinalOf(a.ledger, run, g)
    ensures !FinalOf(b.ledger, run, g)
  {
    hide State, RecordOf, SameRefs, SameFinals, Payload;
    if g in a.ledger.published { PayloadKept(a.ledger, b.ledger, g); }
  }

  lemma CaptureIs(a: Disk, b: Disk, parent: Option<GenerationId>, origin: Origin, files: Files)
    requires NewGenerationOf(a, b, parent, origin, files) && IsInPlace(b.view, a.ledger.nextGen)
    ensures a.ledger.nextGen in b.ledger.published && PublishedPayload(b.ledger, a.ledger.nextGen) == Payload(files)
  {
    hide State, RecordOf, SameRefs, SameFinals;
    PublishKeepsPayload(a.ledger.nextGen, parent, origin, files);
  }

  lemma SealedKeeps(a: Disk, b: Disk, session: Session)
    requires (SessionOk(a, Some(session.(sealed := false))) || SessionOk(a, Some(session))) && session.sealed
    requires State(b) == State(a) && RecordOf(b.view) == RecordOf(a.view)
    ensures SessionOk(b, Some(session))
  {
    hide State, RecordOf, HasDisk, FinalOf;
  }

  /** Publishing the capture of a run's disk as its final snapshot. */
  lemma CapturedFinal(a: Disk, b: Disk, parent: Option<GenerationId>, run: RunId, files: Files)
    requires NewGenerationOf(a, b, parent, Snapshot(run), files) && IsInPlace(b.view, a.ledger.nextGen)
    requires HasDisk(State(a)) && Writes(Payload(files)) == Writes(State(a).value.open.value.files)
    ensures IsFinal(b, run, a.ledger.nextGen) && PublishedPayload(b.ledger, a.ledger.nextGen) == Payload(files)
    ensures Writes(PublishedPayload(b.ledger, a.ledger.nextGen)) == OpenWrites(a) == OpenWrites(b)
  {
    hide RecordOf, SameRefs, SameFinals, Payload, Writes, Abs;
    CaptureIs(a, b, parent, Snapshot(run), files);
    PublishedOrigin(b.ledger, a.ledger.nextGen, parent, Snapshot(run), files);
  }

  /** Committing it, or not. */
  lemma CommittedFinal(a: Disk, b: Disk, live: set<nat>, run: RunId, g: GenerationId, r: Outcome<()>)
    requires SafeFor(State(a), live) && HasDisk(State(a)) && live <= Writes(State(a).value.open.value.files)
    requires Writes(PublishedPayload(a.ledger, g)) == OpenWrites(a)
    requires CommitOutcome(a, b, Record(Some(g), Stopped), r.Ok?)
    ensures SafeFor(State(b), live)
    ensures RecordOf(b.view) != Some(Record(Some(g), Stopped)) ==>
              r.Err? && State(b) == State(a) && RecordOf(b.view) == RecordOf(a.view)
    ensures RecordOf(b.view) == Some(Record(Some(g), Stopped)) ==>
              && State(b).Some? && State(b).value.open.None? && SavedWrites(b) == OpenWrites(a)
              && State(b).value.current == Some(PublishedPayload(a.ledger, g))
  {
    hide SafeFor, RecordOf, Checkpoints, Writes, Only, PublishedPayload, SameFinals;
    if RecordOf(b.view) == Some(Record(Some(g), Stopped)) { SafeStopped(State(b), live); }
  }

  lemma StartedOk(a: Disk, b: Disk, from: Option<GenerationId>, run: RunId)
    requires Began(a, b, from, run) && BootableRun(b, run) && a.ledger.published == b.ledger.published
    requires forall g :: !FinalOf(a.ledger, run, g)
    ensures forall base :: SessionOk(b, Some(Session(run, base, false, false)))
  {
    hide RecordOf, Checkpoints;
    SamePublished(a.ledger, b.ledger);
  }

  lemma RecoverEitherWay(a: Disk, b: Disk, live: set<nat>, next: nat, r: Outcome<Recovery>)
    requires CrashSafe(a) && SafeFor(State(a), live) && Booked(a, live, next)
    requires r.Ok? ==> Recovered(a, b, r.value)
    requires r == Err(Io) ==> State(b) == State(a) || exists how :: Recovered(a, b, how)
    requires r.Err? && r != Err(Io) ==> b == a
    ensures SafeFor(State(b), live)
  {
    hide CrashSafe, SafeFor, Booked, State, Recovered;
    if r.Ok? {
      RecoveredSafe(a, b, live, next, r.value);
    } else if how :| Recovered(a, b, how) {
      RecoveredSafe(a, b, live, next, how);
    }
  }

  lemma BeginEitherWay(a: Disk, b: Disk, live: set<nat>, from: Option<GenerationId>, next: nat, r: Outcome<RunId>)
    requires CrashSafe(a) && SafeFor(State(a), live) && Booked(a, live, next) && Later(a, b)
    requires RecordOf(a.view).Some? && RecordOf(a.view).value.phase == Stopped
    requires a.ledger.published == b.ledger.published
    requires var q := a.ledger.nextRun;
             && Images(b.view) - {q} == Images(a.view) - {q}
             && (ImageOn(b.view, q) == [] || ImageOn(b.view, q) == FilesImage(BaseFiles(a, from)))
             && RunRecords(b.ledger.records) <= RunRecords(a.ledger.records) + {(q, RecordOf(a.view).value.latest)}
    requires r.Ok? ==> Began(a, b, from, r.value)
    requires r == Err(Io) ==> (State(b) == State(a) && RecordOf(b.view) == RecordOf(a.view)) || exists run :: Began(a, b, from, run)
    requires r.Err? && r != Err(Io) ==> b == a
    ensures Booked(b, live, next)
    ensures RecordOf(b.view) == RecordOf(a.view) ==> SafeFor(State(b), live) && r.Err?
    ensures RecordOf(b.view) != RecordOf(a.view) ==>
              SafeFor(State(b), live * Writes(BaseFiles(a, from))) && (from.None? ==> live <= Writes(BaseFiles(a, from)))
  {
    hide CrashSafe, AckSafe, OnRun, Booked, Later, Grows, Checkpoints, RecordOf, PublishedPayload, Writes, Images,
         RunRecords, FilesImage, ImageOn, BaseFiles;
    NewDiskBelow(a, b, live, from, next);
    BookBegan(a, b, live, next);
    if run :| Began(a, b, from, run) { BeganSafe(a, b, live, from, run); }
  }

  lemma NewDiskBelow(a: Disk, b: Disk, live: set<nat>, from: Option<GenerationId>, next: nat)
    requires Booked(a, live, next) && RecordOf(a.view).Some?
    requires var q := a.ledger.nextRun; ImageOn(b.view, q) == [] || ImageOn(b.view, q) == FilesImage(BaseFiles(a, from))
    ensures AllBelow(Held(b.view, a.ledger.nextRun), next)
  {
    hide FinalsHold, RunRecords, Payload, RecordOf, ImageOn;
    var base := if from.Some? then from else RecordOf(a.view).value.latest;
    if base.Some? { assert AllBelow(Writes(PublishedPayload(a.ledger, base.value)), next); }
  }
}
