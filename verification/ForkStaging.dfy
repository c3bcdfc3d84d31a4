/**
  Forks staged, leased, published and cleaned up (src/checkpoints.rs:284-402):
  any number of forking processes, each system call one step, killed anywhere.
  A process first cleans up after dead forks, then creates its own staging
  directory, fills it from a pinned generation, and publishes it by one rename.
 */
module ForkStaging {
  import opened Layout
  import opened StoreModel

  type Pid = nat
  type Root = nat        // a transaction root's `fork` directory, with its own guard
  type DirName = nat     // a staging directory; names are never reused
  type Lease = nat       // the inode of one `.lnx-fork-lease`
  type Dest = nat

  /** A store being assembled: the files copied so far, and whether its record is committed. */
  datatype Stored = Stored(files: Files, committed: bool)

  datatype StagedDir = StagedDir(root: Root, lease: Option<Lease>, stored: Stored)

  datatype Proc =
    | Idle
    | Cleaning(root: Root, todo: set<DirName>)                            // guard held
    | LeaseOpen(root: Root, todo: set<DirName>, dir: DirName, lease: Lease)
    | Deleting(root: Root, todo: set<DirName>, dir: DirName)              // found stale
    | Creating(root: Root)                                                // guard held
    | Made(root: Root, dir: DirName)
    | LeaseMade(root: Root, dir: DirName, lease: Lease)                   // not locked yet
    | Leased(root: Root, dir: DirName, lease: Lease)                      // locked, guard still held
    | Working(dir: DirName, lease: Lease, source: Files, copied: set<Name>, done: bool)
    | Publishing(dir: DirName, lease: Lease, source: Files, dest: Dest)   // destination seen absent
    | Published(lease: Lease, dest: Dest)
    | Discarding(dir: DirName, lease: Lease)                              // its own failed fork

  datatype Sys = Sys(
    staging: map<DirName, StagedDir>,
    instances: map<Dest, Stored>,
    sources: map<Dest, Files>,            // what each published fork copied
    guards: map<Root, Pid>,
    leases: map<Lease, Pid>,              // locks held on lease inodes
    procs: map<Pid, Proc>,
    nextDir: DirName,
    nextLease: Lease)

  function ProcOf(s: Sys, p: Pid): Proc { if p in s.procs then s.procs[p] else Idle }
  predicate HoldsGuard(s: Sys, p: Pid, root: Root) { root in s.guards && s.guards[root] == p }

  datatype Step =
    // cleaning up after dead forks
    | LockToClean(root: Root)               // lock the guard, list the directory
    | OpenLease(dir: DirName)
    | TryLease                              // a non-blocking exclusive lock, released when the file is closed
    | StopCleaning
    // creating a staging directory
    | LockToCreate(root: Root)
    | MakeDir
    | MakeLease
    | LockLease
    | DropGuard(source: Files)
    // filling and publishing it
    | CopyFile(n: Name)
    | CommitRecord
    | SeeDestAbsent(dest: Dest)
    | Rename
    | RemoveLease
    | Fail
    // removing a directory tree: a stale one, or the process's own failed one
    | RemovePart(n: Name)
    | RemoveLeaseFile
    | RemoveDir
    | Kill

  predicate Removing(proc: Proc) { proc.Deleting? || proc.Discarding? }

  /** A fork goes by its own progress: what it copied, and whether it committed. */
  predicate Enabled(s: Sys, p: Pid, step: Step) {
    var proc := ProcOf(s, p);
    match step
    case LockToClean(root) => proc == Idle && root !in s.guards
    case OpenLease(d) => proc.Cleaning? && d in proc.todo
    case TryLease => proc.LeaseOpen?
    case StopCleaning => proc.Cleaning? && proc.todo == {}
    case LockToCreate(root) => proc == Idle && root !in s.guards
    case MakeDir => proc.Creating?
    case MakeLease => proc.Made?
    case LockLease => proc.LeaseMade? && proc.lease !in s.leases
    case DropGuard(_) => proc.Leased?
    case CopyFile(n) => proc.Working? && n in proc.source && n !in proc.copied
    case CommitRecord => proc.Working? && proc.copied == proc.source.Keys && !proc.done
    case SeeDestAbsent(_) => proc.Working? && proc.done
    case Rename => proc.Publishing?
    case RemoveLease => proc.Published?
    case Fail => proc.Working?
    case RemovePart(n) => Removing(proc) && proc.dir in s.staging && n in s.staging[proc.dir].stored.files
    case RemoveLeaseFile => Removing(proc) && proc.dir in s.staging
    case RemoveDir => Removing(proc)
    case Kill => true
  }

  /** The rename fails when another fork took the destination; the staging
      directory was kept, so it is left behind. */
  predicate Publishes(s: Sys, p: Pid, step: Step)
    requires Enabled(s, p, step)
  {
    step.Rename? && ProcOf(s, p).dest !in s.instances && ProcOf(s, p).dir in s.staging
  }

  /** The process ends, by itself, by an error or killed, and lets go of its locks. */
  predicate Ends(s: Sys, p: Pid, step: Step)
    requires Enabled(s, p, step)
  {
    || step.StopCleaning? || step.RemoveLease? || step.Kill?
    || (step.Rename? && !Publishes(s, p, step))
       // a directory that is gone can neither be removed nor take a lease
    || (step.RemoveDir? && (ProcOf(s, p).Discarding? || ProcOf(s, p).dir !in s.staging))
    || (step.MakeLease? && ProcOf(s, p).dir !in s.staging)
  }

  function NextProc(s: Sys, p: Pid, step: Step): Proc
    requires Enabled(s, p, step)
  {
    var proc := ProcOf(s, p);
    if Ends(s, p, step) then Idle
    else
      match step
      case LockToClean(root) => Cleaning(root, set d | d in s.staging && s.staging[d].root == root)
      case OpenLease(d) =>
        if d in s.staging && s.staging[d].lease.Some? then
          LeaseOpen(proc.root, proc.todo - {d}, d, s.staging[d].lease.value)
        else Deleting(proc.root, proc.todo - {d}, d)
      case TryLease =>
        if proc.lease in s.leases then Cleaning(proc.root, proc.todo) else Deleting(proc.root, proc.todo, proc.dir)
      case LockToCreate(root) => Creating(root)
      case MakeDir => Made(proc.root, s.nextDir)
      case MakeLease => LeaseMade(proc.root, proc.dir, s.nextLease)
      case LockLease => Leased(proc.root, proc.dir, proc.lease)
      case DropGuard(source) => Working(proc.dir, proc.lease, source, {}, false)
      case CopyFile(n) =>
        if proc.dir in s.staging then proc.(copied := proc.copied + {n}) else Discarding(proc.dir, proc.lease)
      case CommitRecord => if proc.dir in s.staging then proc.(done := true) else Discarding(proc.dir, proc.lease)
      case SeeDestAbsent(dest) =>
        if dest in s.instances then Discarding(proc.dir, proc.lease)
        else Publishing(proc.dir, proc.lease, proc.source, dest)
      case Rename => Published(proc.lease, proc.dest)
      case Fail => Discarding(proc.dir, proc.lease)
      case RemoveDir => Cleaning(proc.root, proc.todo)
      case _ => proc
  }

  /** What a step makes of the one staging directory it may change; None: no such directory. */
  function NextDir(s: Sys, p: Pid, step: Step): Option<StagedDir>
    requires Enabled(s, p, step)
  {
    var proc := ProcOf(s, p);
    var d := Touched(s, p);
    if step.MakeDir? then Some(StagedDir(proc.root, None, Stored(map[], false)))
    else if d !in s.staging || step.RemoveDir? || Publishes(s, p, step) then None
    else
      var dir := s.staging[d];
      match step
      case MakeLease => Some(dir.(lease := Some(s.nextLease)))
      case RemoveLeaseFile => Some(dir.(lease := None))
      case CopyFile(n) => Some(dir.(stored := Stored(dir.stored.files[n := proc.source[n]], dir.stored.committed)))
      case CommitRecord => Some(dir.(stored := Stored(dir.stored.files, true)))
      case RemovePart(n) => Some(dir.(stored := Stored(dir.stored.files - {n}, false)))
      case _ => Some(dir)
  }

  function Touched(s: Sys, p: Pid): DirName {
    var proc := ProcOf(s, p);
    if HasDir(proc) || proc.Deleting? then proc.dir else s.nextDir
  }

  function NextStaging(s: Sys, p: Pid, step: Step): (staging: map<DirName, StagedDir>)
    requires Enabled(s, p, step)
  {
    match NextDir(s, p, step)
    case Some(dir) => s.staging[Touched(s, p) := dir]
    case None => s.staging - {Touched(s, p)}
  }

  function NextGuards(s: Sys, p: Pid, step: Step): map<Root, Pid>
    requires Enabled(s, p, step)
  {
    if step.LockToClean? || step.LockToCreate? then s.guards[step.root := p]
    else if Ends(s, p, step) || step.DropGuard? then map r | r in s.guards && s.guards[r] != p :: s.guards[r]
    else s.guards
  }

  function NextLeases(s: Sys, p: Pid, step: Step): map<Lease, Pid>
    requires Enabled(s, p, step)
  {
    if step.LockLease? then s.leases[ProcOf(s, p).lease := p]
    else if Ends(s, p, step) then map l | l in s.leases && s.leases[l] != p :: s.leases[l]
    else s.leases
  }

  function Apply(s: Sys, p: Pid, step: Step): Sys
    requires Enabled(s, p, step)
  {
    var proc := ProcOf(s, p);
    var published := Publishes(s, p, step);
    Sys(
      NextStaging(s, p, step),
      if published then s.instances[proc.dest := s.staging[proc.dir].stored] else s.instances,
      if published then s.sources[proc.dest := proc.source] else s.sources,
      NextGuards(s, p, step),
      NextLeases(s, p, step),
      s.procs[p := NextProc(s, p, step)],
      if step.MakeDir? then s.nextDir + 1 else s.nextDir,
      if step.MakeLease? then s.nextLease + 1 else s.nextLease)
  }

  /** A run: which process takes which step. */
  predicate IsRun(s: Sys, steps: seq<(Pid, Step)>)
    decreases |steps|
  {
    steps == [] || (Enabled(s, steps[0].0, steps[0].1) && IsRun(Apply(s, steps[0].0, steps[0].1), steps[1..]))
  }

  function After(s: Sys, steps: seq<(Pid, Step)>): Sys
    requires IsRun(s, steps)
    decreases |steps|
  {
    if steps == [] then s else After(Apply(s, steps[0].0, steps[0].1), steps[1..])
  }

  const Start := Sys(map[], map[], map[], map[], map[], map[], 0, 0)

  // ------------------------------------------------------------ the invariant

  /** The process is alive with a staging directory that will become an instance. */
  predicate Forking(proc: Proc) {
    proc.Made? || proc.LeaseMade? || proc.Leased? || proc.Working? || proc.Publishing?
  }

  predicate HasDir(proc: Proc) { Forking(proc) || proc.Discarding? }

  predicate HasLease(proc: Proc) {
    proc.Leased? || proc.Working? || proc.Publishing? || proc.Published? || proc.Discarding?
  }

  predicate UnderGuard(proc: Proc) {
    proc.Cleaning? || proc.LeaseOpen? || proc.Deleting? || proc.Creating? || proc.Made? || proc.LeaseMade? || proc.Leased?
  }

  ghost predicate ProcOk(s: Sys, p: Pid) {
    LocksOk(s, p) && DirOk(s, ProcOf(s, p)) && ListOk(s, ProcOf(s, p))
  }

  ghost predicate LocksOk(s: Sys, p: Pid) {
    var proc := ProcOf(s, p);
    && (UnderGuard(proc) ==> HoldsGuard(s, p, proc.root))
    && (HasLease(proc) ==> proc.lease in s.leases && s.leases[proc.lease] == p)
    && (HasLease(proc) || proc.LeaseMade? || proc.LeaseOpen? ==> proc.lease < s.nextLease)
  }

  /** The staging directory of a live fork is there and says how far it got. */
  ghost predicate DirOk(s: Sys, proc: Proc) {
    && (HasDir(proc) || proc.LeaseOpen? || proc.Deleting? ==> proc.dir < s.nextDir)
    && (Forking(proc) ==> proc.dir in s.staging)
    && (proc.Made? || proc.LeaseMade? || proc.Leased? ==>
          s.staging[proc.dir].root == proc.root && s.staging[proc.dir].stored == Stored(map[], false))
    && (Forking(proc) ==> s.staging[proc.dir].lease == if proc.Made? then None else Some(proc.lease))
    && (proc.Working? ==> Progress(s.staging[proc.dir].stored, proc.source, proc.copied, proc.done))
    && (proc.Publishing? ==> s.staging[proc.dir].stored == Stored(proc.source, true))
  }

  ghost predicate ListOk(s: Sys, proc: Proc) {
    proc.Cleaning? || proc.LeaseOpen? || proc.Deleting? ==> forall d :: d in proc.todo ==> Listed(s, d, proc.root)
  }

  predicate Listed(s: Sys, d: DirName, root: Root) {
    d < s.nextDir && (d in s.staging ==> s.staging[d].root == root)
  }

  /** The directory holds what the fork has copied, no more and no less, and is
      committed if the fork has committed it, which it does last. */
  predicate Progress(stored: Stored, source: Files, copied: set<Name>, done: bool) {
    && copied <= source.Keys && (done ==> copied == source.Keys) && stored.committed == done
    && stored.files == map n | n in copied && n in source :: source[n]
  }

  /** A directory has one owner; a cleaner that decided to delete a directory, or
      has its lease open, knows where it stands with its owner. */
  ghost predicate PairOk(s: Sys, p: Pid, q: Pid) {
    var a, b := ProcOf(s, p), ProcOf(s, q);
    && (p != q && HasDir(a) && HasDir(b) ==> a.dir != b.dir)
    && (a.Deleting? && Forking(b) ==> a.dir != b.dir)
    && (a.LeaseOpen? && Forking(b) && a.dir == b.dir ==> !UnderGuard(b) && a.lease == b.lease)
  }

  /** Published instances are complete copies of what was forked. */
  ghost predicate DestOk(s: Sys, dest: Dest) {
    dest in s.instances ==> dest in s.sources && s.instances[dest] == Stored(s.sources[dest], true)
  }

  ghost predicate StagingOk(s: Sys, d: DirName) {
    d in s.staging ==> d < s.nextDir && (s.staging[d].lease.Some? ==> s.staging[d].lease.value < s.nextLease)
  }

  ghost predicate Inv(s: Sys) {
    && (forall p :: ProcOk(s, p))
    && (forall p, q :: PairOk(s, p, q))
    && (forall dest :: DestOk(s, dest))
    && (forall d :: StagingOk(s, d))
  }

  lemma InvStart()
    ensures Inv(Start)
  {
  }

  // What a step leaves alone, as far as other processes can tell.

  predicate SameDir(s: Sys, t: Sys, d: DirName) {
    if d in s.staging then d in t.staging && t.staging[d] == s.staging[d] else d !in t.staging
  }

  ghost predicate Frame(s: Sys, t: Sys, p: Pid) {
    && (forall q :: q != p ==> ProcOf(t, q) == ProcOf(s, q))
    && (forall d :: d != Touched(s, p) ==> SameDir(s, t, d))
    && (forall r :: r in s.guards && s.guards[r] != p ==> r in t.guards && t.guards[r] == s.guards[r])
    && (forall l :: l in s.leases && s.leases[l] != p ==> l in t.leases && t.leases[l] == s.leases[l])
    && s.nextDir <= t.nextDir && s.nextLease <= t.nextLease
    && SameRoot(s, t, Touched(s, p))
    && StagingOk(t, Touched(s, p))
  }

  /** A directory never moves to another root, and a new one takes the next name. */
  predicate SameRoot(s: Sys, t: Sys, d: DirName) {
    d in t.staging ==> if d in s.staging then t.staging[d].root == s.staging[d].root else d == s.nextDir
  }

  lemma LocksOfOthers(s: Sys, p: Pid, step: Step)
    requires Enabled(s, p, step)
    ensures var guards := NextGuards(s, p, step);
            forall r :: r in s.guards && s.guards[r] != p ==> r in guards && guards[r] == s.guards[r]
    ensures var leases := NextLeases(s, p, step);
            forall l :: l in s.leases && s.leases[l] != p ==> l in leases && leases[l] == s.leases[l]
  {
    hide Ends;
  }

  lemma TouchedDir(s: Sys, p: Pid, step: Step)
    requires Enabled(s, p, step) && StagingOk(s, Touched(s, p)) && StagingOk(s, s.nextDir)
    ensures NextDir(s, p, step).Some? && Touched(s, p) in s.staging ==>
              NextDir(s, p, step).value.root == s.staging[Touched(s, p)].root
    ensures NextDir(s, p, step).Some? && Touched(s, p) !in s.staging ==> step.MakeDir? && Touched(s, p) == s.nextDir
    ensures NextDir(s, p, step).Some? && NextDir(s, p, step).value.lease.Some? ==>
              NextDir(s, p, step).value.lease.value < if step.MakeLease? then s.nextLease + 1 else s.nextLease
  {
    hide Ends;
  }

  lemma StepFrame(s: Sys, p: Pid, step: Step)
    requires Inv(s) && Enabled(s, p, step)
    ensures Frame(s, Apply(s, p, step), p)
  {
    assert StagingOk(s, Touched(s, p)) && StagingOk(s, s.nextDir);
    hide Inv;
    LocksOfOthers(s, p, step);
    TouchedDir(s, p, step);
    hide Enabled, NextGuards, NextLeases, NextDir, NextProc;
  }

  /** Another process: the step touches only directories it does not own. */
  lemma OtherStep(s: Sys, t: Sys, p: Pid, q: Pid)
    requires ProcOk(s, q) && PairOk(s, p, q) && PairOk(s, q, p) && Frame(s, t, p) && p != q
    ensures ProcOk(t, q)
  {
    var b := ProcOf(s, q);
    if Forking(b) { assert SameDir(s, t, b.dir); }
    if b.Cleaning? || b.LeaseOpen? || b.Deleting? {
      forall d | d in b.todo ensures Listed(t, d, b.root) {
        assert Listed(s, d, b.root);
        if d != Touched(s, p) { assert SameDir(s, t, d); }
      }
    }
  }

  lemma OwnLocks(s: Sys, p: Pid, step: Step)
    requires LocksOk(s, p) && Enabled(s, p, step)
    requires step.OpenLease? ==> StagingOk(s, step.dir)
    ensures LocksOk(Apply(s, p, step), p)
  {
    hide NextStaging;
  }

  lemma OwnDir(s: Sys, p: Pid, step: Step)
    requires DirOk(s, ProcOf(s, p)) && Enabled(s, p, step)
    requires step.OpenLease? ==> Listed(s, step.dir, ProcOf(s, p).root)
    ensures DirOk(Apply(s, p, step), NextProc(s, p, step))
  {
    hide NextGuards, NextLeases, Progress;
    var proc := ProcOf(s, p);
    if proc.Working? { ProgressStep(s.staging[proc.dir].stored, proc.source, proc.copied, proc.done, step); }
    if step.DropGuard? { NoProgress(step.source); }
  }

  lemma ProgressStep(stored: Stored, source: Files, copied: set<Name>, done: bool, step: Step)
    requires Progress(stored, source, copied, done)
    ensures step.CopyFile? && step.n in source && step.n !in copied ==>
              Progress(Stored(stored.files[step.n := source[step.n]], stored.committed), source, copied + {step.n}, done)
    ensures step.CommitRecord? && copied == source.Keys ==> Progress(Stored(stored.files, true), source, copied, true)
    ensures done ==> stored == Stored(source, true)
  {
  }

  lemma NoProgress(source: Files)
    ensures Progress(Stored(map[], false), source, {}, false)
  {
  }

  lemma OwnList(s: Sys, p: Pid, step: Step)
    requires ListOk(s, ProcOf(s, p)) && Enabled(s, p, step) && (forall d :: StagingOk(s, d))
    requires Frame(s, Apply(s, p, step), p)
    ensures ListOk(Apply(s, p, step), NextProc(s, p, step))
  {
    var t, proc := Apply(s, p, step), NextProc(s, p, step);
    if proc.Cleaning? || proc.LeaseOpen? || proc.Deleting? {
      forall d | d in proc.todo ensures Listed(t, d, proc.root) {
        assert StagingOk(s, d) && Listed(s, d, proc.root);
        hide NextProc, NextStaging, NextGuards, NextLeases;
        if d != Touched(s, p) { assert SameDir(s, t, d); }
      }
    }
  }

  lemma OwnStep(s: Sys, p: Pid, step: Step)
    requires Inv(s) && Enabled(s, p, step) && Frame(s, Apply(s, p, step), p)
    ensures ProcOk(Apply(s, p, step), p)
  {
    assert ProcOk(s, p);
    if step.OpenLease? { assert StagingOk(s, step.dir) && Listed(s, step.dir, ProcOf(s, p).root); }
    OwnLocks(s, p, step);
    OwnDir(s, p, step);
    OwnList(s, p, step);
    hide LocksOk, DirOk, ListOk, NextProc, NextStaging, NextGuards, NextLeases;
  }

  /** A cleaner calls a directory stale only when no live fork owns it. */
  lemma PairFrom(s: Sys, p: Pid, step: Step, q: Pid)
    requires Enabled(s, p, step) && p != q
    requires LocksOk(s, p) && LocksOk(s, q) && DirOk(s, ProcOf(s, q)) && PairOk(s, p, q)
    requires step.OpenLease? ==> Listed(s, step.dir, ProcOf(s, p).root)
    ensures PairOk(Apply(s, p, step), p, q)
  {
    hide NextStaging, NextGuards, NextLeases;
  }

  /** A new directory has a name nobody has seen. */
  lemma PairTo(s: Sys, p: Pid, step: Step, q: Pid)
    requires Enabled(s, p, step) && p != q
    requires LocksOk(s, p) && LocksOk(s, q) && DirOk(s, ProcOf(s, q)) && PairOk(s, q, p)
    ensures PairOk(Apply(s, p, step), q, p)
  {
    hide NextStaging, NextGuards, NextLeases;
  }

  lemma PairStep(s: Sys, p: Pid, step: Step, q: Pid)
    requires Inv(s) && Enabled(s, p, step) && p != q
    ensures PairOk(Apply(s, p, step), p, q) && PairOk(Apply(s, p, step), q, p)
  {
    assert ProcOk(s, p) && ProcOk(s, q) && PairOk(s, p, q) && PairOk(s, q, p);
    assert step.OpenLease? ==> Listed(s, step.dir, ProcOf(s, p).root);
    hide Inv, LocksOk, DirOk, ListOk, PairOk, Apply;
    PairFrom(s, p, step, q);
    PairTo(s, p, step, q);
  }

  lemma PairOther(s: Sys, t: Sys, p: Pid, q: Pid, r: Pid)
    requires Frame(s, t, p) && PairOk(s, q, r) && p != q && p != r
    ensures PairOk(t, q, r)
  {
  }

  lemma DestStep(s: Sys, p: Pid, step: Step, dest: Dest)
    requires ProcOk(s, p) && DestOk(s, dest) && Enabled(s, p, step)
    ensures DestOk(Apply(s, p, step), dest)
    ensures dest in s.instances ==>
              dest in Apply(s, p, step).instances && Apply(s, p, step).instances[dest] == s.instances[dest]
  {
    hide NextProc, NextStaging, NextGuards, NextLeases;
  }

  lemma StagingStep(s: Sys, t: Sys, p: Pid, d: DirName)
    requires StagingOk(s, d) && Frame(s, t, p)
    ensures StagingOk(t, d)
  {
    if d != Touched(s, p) { assert SameDir(s, t, d); }
  }

  lemma InvStep(s: Sys, p: Pid, step: Step)
    requires Inv(s) && Enabled(s, p, step)
    ensures Inv(Apply(s, p, step))
  {
    hide Apply, Enabled, ProcOk, PairOk, DestOk, StagingOk, Frame;
    var t := Apply(s, p, step);
    StepFrame(s, p, step);
    forall q ensures ProcOk(t, q) {
      if q == p { OwnStep(s, p, step); } else { OtherStep(s, t, p, q); }
    }
    forall q, r ensures PairOk(t, q, r) {
      if q == r { PairSelf(t, q); }
      else if q == p { PairStep(s, p, step, r); }
      else if r == p { PairStep(s, p, step, q); }
      else { PairOther(s, t, p, q, r); }
    }
    forall dest ensures DestOk(t, dest) { DestStep(s, p, step, dest); }
    forall d ensures StagingOk(t, d) { StagingStep(s, t, p, d); }
  }

  lemma PairSelf(s: Sys, p: Pid)
    ensures PairOk(s, p, p)
  {
  }

  lemma {:induction false} InvRun(s: Sys, steps: seq<(Pid, Step)>)
    requires Inv(s) && IsRun(s, steps)
    ensures Inv(After(s, steps))
    decreases |steps|
  {
    hide Apply, Enabled, Inv;
    if steps != [] {
      InvStep(s, steps[0].0, steps[0].1);
      InvRun(Apply(s, steps[0].0, steps[0].1), steps[1..]);
    }
  }

  // ------------------------------------------------------------ the theorems

  /** No step of any other process, a cleaner's included, touches the staging
      directory of a live fork, in any reachable state. */
  lemma LiveForkIsLeftAlone(steps: seq<(Pid, Step)>, p: Pid, step: Step, q: Pid)
    requires IsRun(Start, steps) && Enabled(After(Start, steps), p, step) && p != q
    requires Forking(ProcOf(After(Start, steps), q))
    ensures var s := After(Start, steps);
            var d := ProcOf(s, q).dir;
            d in s.staging && d in Apply(s, p, step).staging && Apply(s, p, step).staging[d] == s.staging[d]
  {
    hide IsRun, After;
    InvStart();
    InvRun(Start, steps);
    var s := After(Start, steps);
    StepFrame(s, p, step);
    assert ProcOk(s, q) && ProcOk(s, p) && PairOk(s, p, q);
    hide Apply, Enabled;
    assert SameDir(s, Apply(s, p, step), ProcOf(s, q).dir);
  }

  /** Every destination is absent or a complete store whose latest generation is
      what the fork copied, and no step takes it away or changes it. */
  lemma DestinationsAreComplete(steps: seq<(Pid, Step)>, p: Pid, step: Step, dest: Dest)
    requires IsRun(Start, steps) && Enabled(After(Start, steps), p, step)
    ensures var s := After(Start, steps);
            dest in s.instances ==>
              && dest in s.sources && s.instances[dest] == Stored(s.sources[dest], true)
              && dest in Apply(s, p, step).instances && Apply(s, p, step).instances[dest] == s.instances[dest]
  {
    hide IsRun, After, Apply, Enabled;
    InvStart();
    InvRun(Start, steps);
    var s := After(Start, steps);
    assert DestOk(s, dest);
    DestStep(s, p, step, dest);
  }

  /** No live process owns the directory, or holds or will lock its lease. */
  ghost predicate Dead(s: Sys, d: DirName) {
    && d < s.nextDir
    && (forall q :: HasDir(ProcOf(s, q)) ==> ProcOf(s, q).dir != d)
    && (d in s.staging && s.staging[d].lease.Some? ==> DeadLease(s, s.staging[d].lease.value))
  }

  ghost predicate DeadLease(s: Sys, l: Lease) {
    l < s.nextLease && l !in s.leases && forall q :: ProcOf(s, q).LeaseMade? ==> ProcOf(s, q).lease != l
  }

  /** The directory is gone, or still ahead of the cleaner. */
  ghost predicate Doomed(s: Sys, p: Pid, d: DirName) {
    var proc := ProcOf(s, p);
    || d !in s.staging
    || ((proc.Cleaning? || proc.LeaseOpen? || proc.Deleting?) && d in proc.todo)
    || (proc.LeaseOpen? && proc.dir == d && DeadLease(s, proc.lease))
    || (proc.Deleting? && proc.dir == d)
  }

  /** The process does not end on the way. */
  predicate Stays(s: Sys, steps: seq<(Pid, Step)>, p: Pid)
    requires IsRun(s, steps)
    decreases |steps|
  {
    ProcOf(s, p) != Idle && (steps == [] || Stays(Apply(s, steps[0].0, steps[0].1), steps[1..], p))
  }

  /** What a dead fork left behind does not stay: a cleanup of its root that comes to
      its end, whatever other processes do meanwhile, has removed it. */
  lemma DeadForkIsRemoved(before: seq<(Pid, Step)>, p: Pid, root: Root, d: DirName, steps: seq<(Pid, Step)>)
    requires IsRun(Start, before) && Enabled(After(Start, before), p, LockToClean(root))
    requires var s := After(Start, before); d in s.staging && s.staging[d].root == root && Dead(s, d)
    requires var t := Apply(After(Start, before), p, LockToClean(root));
             IsRun(t, steps) && Stays(t, steps, p) && Enabled(After(t, steps), p, StopCleaning)
    ensures d !in After(Apply(After(Start, before), p, LockToClean(root)), steps).staging
  {
    hide IsRun, After, Inv, Stays, Dead;
    InvStart();
    InvRun(Start, before);
    var s := After(Start, before);
    var t := Apply(s, p, LockToClean(root));
    InvStep(s, p, LockToClean(root));
    DeadStep(s, p, LockToClean(root), d);
    DoomedRun(t, steps, p, d);
  }

  lemma {:induction false} DoomedRun(s: Sys, steps: seq<(Pid, Step)>, p: Pid, d: DirName)
    requires Inv(s) && IsRun(s, steps) && Stays(s, steps, p) && Dead(s, d) && Doomed(s, p, d)
    ensures Doomed(After(s, steps), p, d)
    decreases |steps|
  {
    hide Apply, Enabled, Inv, Dead, Doomed;
    if steps != [] {
      var q, step := steps[0].0, steps[0].1;
      var t := Apply(s, q, step);
      InvStep(s, q, step);
      DeadStep(s, q, step, d);
      assert ProcOf(t, p) != Idle;
      DoomedStep(s, q, step, p, d);
      DoomedRun(t, steps[1..], p, d);
    }
  }

  /** Once nobody can lock a lease, nobody ever will. */
  lemma DeadLeaseStep(s: Sys, p: Pid, step: Step, l: Lease)
    requires Enabled(s, p, step) && DeadLease(s, l)
    ensures DeadLease(Apply(s, p, step), l)
  {
    hide NextStaging, NextGuards;
    var t := Apply(s, p, step);
    forall q | ProcOf(t, q).LeaseMade? ensures ProcOf(t, q).lease != l {
      if q != p { assert ProcOf(t, q) == ProcOf(s, q); }
    }
  }

  lemma DeadStep(s: Sys, p: Pid, step: Step, d: DirName)
    requires Inv(s) && Enabled(s, p, step) && Dead(s, d)
    ensures Dead(Apply(s, p, step), d)
  {
    var t := Apply(s, p, step);
    StepFrame(s, p, step);
    hide Inv;
    OwnerStep(s, p, step, d);
    DirStep(s, p, step, d);
    hide Enabled, Apply, DeadLease;
    if d in t.staging && t.staging[d].lease.Some? {
      DeadLeaseStep(s, p, step, t.staging[d].lease.value);
    }
  }

  lemma OwnerStep(s: Sys, p: Pid, step: Step, d: DirName)
    requires Enabled(s, p, step) && d < s.nextDir && forall q :: HasDir(ProcOf(s, q)) ==> ProcOf(s, q).dir != d
    ensures forall q :: HasDir(ProcOf(Apply(s, p, step), q)) ==> ProcOf(Apply(s, p, step), q).dir != d
  {
    hide NextStaging, NextGuards, NextLeases;
    var t := Apply(s, p, step);
    assert HasDir(NextProc(s, p, step)) ==> NextProc(s, p, step).dir != d;
    hide NextProc;
    forall q | HasDir(ProcOf(t, q)) ensures ProcOf(t, q).dir != d {
      if q != p { assert ProcOf(t, q) == ProcOf(s, q); }
    }
  }

  /** A directory without an owner changes only by being removed. */
  lemma DirStep(s: Sys, p: Pid, step: Step, d: DirName)
    requires Enabled(s, p, step) && d < s.nextDir && !(HasDir(ProcOf(s, p)) && ProcOf(s, p).dir == d)
    ensures var t := Apply(s, p, step);
            d in t.staging ==> d in s.staging && (t.staging[d].lease == s.staging[d].lease || t.staging[d].lease.None?)
  {
    hide NextProc, NextGuards, NextLeases, Ends;
  }

  lemma DoomedStep(s: Sys, q: Pid, step: Step, p: Pid, d: DirName)
    requires Enabled(s, q, step) && Dead(s, d) && Doomed(s, p, d) && ProcOf(Apply(s, q, step), p) != Idle
    ensures Doomed(Apply(s, q, step), p, d)
  {
    var t, proc := Apply(s, q, step), ProcOf(s, p);
    DirStep(s, q, step, d);
    if proc.LeaseOpen? && proc.dir == d && DeadLease(s, proc.lease) { DeadLeaseStep(s, q, step, proc.lease); }
    if q == p {
      OwnDoom(s, p, step, d);
    } else {
      assert ProcOf(t, p) == proc;
    }
  }

  lemma OwnDoom(s: Sys, p: Pid, step: Step, d: DirName)
    requires Enabled(s, p, step) && Dead(s, d) && Doomed(s, p, d) && NextProc(s, p, step) != Idle
    requires d in Apply(s, p, step).staging ==> d in s.staging
    ensures Doomed(Apply(s, p, step), p, d)
  {
    hide NextGuards;
    var t := Apply(s, p, step);
    if step.OpenLease? && step.dir == d && d in s.staging && s.staging[d].lease.Some? {
      DeadLeaseStep(s, p, step, s.staging[d].lease.value);
    }
    hide DeadLease, NextLeases;
  }
}
