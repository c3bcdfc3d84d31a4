/**
  What a fork comes to (src/checkpoints.rs:284-341): published whole at a
  destination that is free, refused at one that is taken, and cleaned away by a
  later fork when it is killed.
 */
module ForkProgress {
  import opened Layout
  import opened StoreModel
  import opened ForkStaging

  // ------------------------------------------------------------ publishing

  /** Every step is some other process's. */
  ghost predicate OfOthers(steps: seq<(Pid, Step)>, p: Pid) { forall i :: 0 <= i < |steps| ==> steps[i].0 != p }

  lemma OtherKeepsProc(s: Sys, q: Pid, step: Step, p: Pid)
    requires Enabled(s, q, step) && q != p
    ensures ProcOf(Apply(s, q, step), p) == ProcOf(s, p)
  {
  }

  /** What other processes do changes neither where a process is nor a published instance. */
  lemma {:induction false} OthersRun(s: Sys, steps: seq<(Pid, Step)>, p: Pid, dest: Dest)
    requires Inv(s) && IsRun(s, steps) && OfOthers(steps, p)
    ensures Inv(After(s, steps)) && ProcOf(After(s, steps), p) == ProcOf(s, p)
    ensures dest in s.instances ==>
              dest in After(s, steps).instances && After(s, steps).instances[dest] == s.instances[dest]
    decreases |steps|
  {
    hide Apply, Enabled, Inv;
    if steps != [] {
      var q, step := steps[0].0, steps[0].1;
      assert q != p;
      OtherKeepsProc(s, q, step, p);
      InvStep(s, q, step);
      KeptDest(s, q, step, dest);
      OthersRun(Apply(s, q, step), steps[1..], p, dest);
    }
  }

  lemma KeptDest(s: Sys, p: Pid, step: Step, dest: Dest)
    requires Inv(s) && Enabled(s, p, step)
    ensures dest in s.instances ==>
              dest in Apply(s, p, step).instances && Apply(s, p, step).instances[dest] == s.instances[dest]
  {
    hide Apply, Enabled;
    assert ProcOk(s, p) && DestOk(s, dest);
    DestStep(s, p, step, dest);
  }

  lemma Reachable(steps: seq<(Pid, Step)>)
    requires IsRun(Start, steps)
    ensures Inv(After(Start, steps))
  {
    hide IsRun, After, Inv;
    InvStart();
    InvRun(Start, steps);
  }

  /** A fork that is done, finds its destination free and has it still free at the rename is
      published there, whole; its staging directory is gone. */
  lemma DoneForkIsPublished(before: seq<(Pid, Step)>, p: Pid, dest: Dest, between: seq<(Pid, Step)>)
    requires IsRun(Start, before)
    requires var proc := ProcOf(After(Start, before), p); proc.Working? && proc.done
    requires dest !in After(Start, before).instances
    requires var t := Apply(After(Start, before), p, SeeDestAbsent(dest));
             IsRun(t, between) && OfOthers(between, p) && dest !in After(t, between).instances
    ensures var proc := ProcOf(After(Start, before), p);
            var u := After(Apply(After(Start, before), p, SeeDestAbsent(dest)), between);
            && Enabled(u, p, Rename)
            && var v := Apply(u, p, Rename);
               && dest in v.instances && v.instances[dest] == Stored(proc.source, true)
               && proc.dir !in v.staging && ProcOf(v, p) == Published(proc.lease, dest)
  {
    hide IsRun, After, Inv, Apply;
    Reachable(before);
    var s := After(Start, before);
    var t := Apply(s, p, SeeDestAbsent(dest));
    InvStep(s, p, SeeDestAbsent(dest));
    SeenAbsent(s, p, dest);
    OthersRun(t, between, p, dest);
    RenameMoves(After(t, between), p);
  }

  lemma SeenAbsent(s: Sys, p: Pid, dest: Dest)
    requires ProcOf(s, p).Working? && ProcOf(s, p).done && dest !in s.instances
    ensures var proc := ProcOf(s, p);
            ProcOf(Apply(s, p, SeeDestAbsent(dest)), p) == Publishing(proc.dir, proc.lease, proc.source, dest)
  {
  }

  lemma RenameMoves(s: Sys, p: Pid)
    requires Inv(s) && ProcOf(s, p).Publishing? && ProcOf(s, p).dest !in s.instances
    ensures var proc, t := ProcOf(s, p), Apply(s, p, Rename);
            && proc.dest in t.instances && t.instances[proc.dest] == Stored(proc.source, true)
            && proc.dir !in t.staging && ProcOf(t, p) == Published(proc.lease, proc.dest)
  {
    assert ProcOk(s, p);
    hide Inv, ListOk, LocksOk, NextGuards, NextLeases;
  }

  /** A destination that is taken when the fork looks: nothing is published, and the fork goes on
      to throw its staging directory away. */
  lemma TakenWhenSeen(s: Sys, p: Pid, dest: Dest)
    requires ProcOf(s, p).Working? && ProcOf(s, p).done && dest in s.instances
    ensures var t := Apply(s, p, SeeDestAbsent(dest));
            && t.instances == s.instances && t.sources == s.sources
            && ProcOf(t, p) == Discarding(ProcOf(s, p).dir, ProcOf(s, p).lease)
  {
  }

  /** A destination that another fork takes between the look and the rename keeps what that fork
      published; this one ends, and its staging directory is left to a later cleanup. */
  lemma TakenMeanwhile(s: Sys, p: Pid, dest: Dest, between: seq<(Pid, Step)>)
    requires Inv(s) && ProcOf(s, p).Working? && ProcOf(s, p).done && dest !in s.instances
    requires var t := Apply(s, p, SeeDestAbsent(dest));
             IsRun(t, between) && OfOthers(between, p) && dest in After(t, between).instances
    ensures var d := ProcOf(s, p).dir;
            var u := After(Apply(s, p, SeeDestAbsent(dest)), between);
            && Enabled(u, p, Rename)
            && var v := Apply(u, p, Rename);
               v.instances == u.instances && ProcOf(v, p) == Idle && d in v.staging && v.staging[d] == u.staging[d]
  {
    hide Inv, IsRun, After, Apply;
    var t := Apply(s, p, SeeDestAbsent(dest));
    InvStep(s, p, SeeDestAbsent(dest));
    SeenAbsent(s, p, dest);
    OthersRun(t, between, p, dest);
    RenameFails(After(t, between), p);
  }

  lemma RenameFails(s: Sys, p: Pid)
    requires Inv(s) && ProcOf(s, p).Publishing? && ProcOf(s, p).dest in s.instances
    ensures var d, t := ProcOf(s, p).dir, Apply(s, p, Rename);
            t.instances == s.instances && ProcOf(t, p) == Idle && d in t.staging && t.staging[d] == s.staging[d]
  {
    assert ProcOk(s, p);
    hide Inv, ListOk, LocksOk, NextGuards, NextLeases;
  }

  // ------------------------------------------------------------ the whole fork

  predicate Starting(proc: Proc) { proc.Idle? || proc.Creating? || proc.Made? || proc.LeaseMade? || proc.Leased? }

  /** The process is on its way to a fork of `source` at `dest`, or has published it. */
  ghost predicate Heads(proc: Proc, source: Files, dest: Dest) {
    || Starting(proc)
    || (proc.Working? && proc.source == source)
    || (proc.Publishing? && proc.source == source && proc.dest == dest)
    || (proc.Published? && proc.dest == dest)
  }

  ghost predicate OnTrack(s: Sys, p: Pid, source: Files, dest: Dest) {
    && Heads(ProcOf(s, p), source, dest)
    && if ProcOf(s, p).Published? then dest in s.instances && s.instances[dest] == Stored(source, true)
       else dest !in s.instances
  }

  /** How many system calls the fork still has to make. */
  ghost function Left(proc: Proc, source: Files): int {
    match proc
    case Idle => |source| + 8
    case Creating(_) => |source| + 7
    case Made(_, _) => |source| + 6
    case LeaseMade(_, _, _) => |source| + 5
    case Leased(_, _, _) => |source| + 4
    case Working(_, _, _, copied, done) => |source| - |copied| + (if done then 2 else 3)
    case Publishing(_, _, _, _) => 1
    case _ => 0
  }

  /** The fork asks for this source and this destination, and does not fail. */
  ghost predicate Asks(step: Step, source: Files, dest: Dest) {
    match step
    case LockToCreate(_) => true
    case MakeDir => true
    case MakeLease => true
    case LockLease => true
    case DropGuard(files) => files == source
    case CopyFile(_) => true
    case CommitRecord => true
    case SeeDestAbsent(d) => d == dest
    case Rename => true
    case _ => false
  }

  /** Each of a fork's own calls brings it one nearer. */
  lemma OwnProgress(s: Sys, p: Pid, step: Step, source: Files, dest: Dest)
    requires Inv(s) && Enabled(s, p, step) && OnTrack(s, p, source, dest) && Asks(step, source, dest)
    ensures OnTrack(Apply(s, p, step), p, source, dest) && Left(ProcOf(Apply(s, p, step), p), source) == Left(ProcOf(s, p), source) - 1
  {
    hide Apply, Inv, Enabled, Heads, Left, Asks, NextProc;
    StepIs(s, p, step);
    AllOk(s, p);
    if step.Rename? {
      RenameEnds(s, p, source, dest);
      RenameMoves(s, p);
    } else {
      NextProgress(s, p, step, source, dest);
    }
  }

  lemma StepIs(s: Sys, p: Pid, step: Step)
    requires Enabled(s, p, step)
    ensures ProcOf(Apply(s, p, step), p) == NextProc(s, p, step)
    ensures !step.Rename? ==> Apply(s, p, step).instances == s.instances
    ensures step.Rename? ==> ProcOf(s, p).Publishing?
  {
    hide NextStaging, NextGuards, NextLeases, NextProc;
  }

  lemma RenameEnds(s: Sys, p: Pid, source: Files, dest: Dest)
    requires OnTrack(s, p, source, dest) && ProcOf(s, p).Publishing?
    ensures var proc := ProcOf(s, p); proc.source == source && proc.dest == dest && dest !in s.instances
    ensures Left(ProcOf(s, p), source) == 1 && forall l :: Left(Published(l, dest), source) == 0
    ensures forall l :: Heads(Published(l, dest), source, dest)
  {
  }

  lemma NextProgress(s: Sys, p: Pid, step: Step, source: Files, dest: Dest)
    requires DirOk(s, ProcOf(s, p)) && Enabled(s, p, step) && OnTrack(s, p, source, dest) && Asks(step, source, dest) && !step.Rename?
    ensures var next := NextProc(s, p, step);
            Heads(next, source, dest) && !next.Published? && Left(next, source) == Left(ProcOf(s, p), source) - 1
    ensures !ProcOf(s, p).Published?
  {
    hide NextProc, DirOk, Left;
    if ProcOf(s, p).Working? { WorkProgress(s, p, step, source, dest); } else { StartProgress(s, p, step, source, dest); }
  }

  /** Up to the lease. */
  lemma StartProgress(s: Sys, p: Pid, step: Step, source: Files, dest: Dest)
    requires DirOk(s, ProcOf(s, p)) && Enabled(s, p, step) && Starting(ProcOf(s, p)) && Asks(step, source, dest)
    ensures var next := NextProc(s, p, step);
            Heads(next, source, dest) && !next.Published? && Left(next, source) == Left(ProcOf(s, p), source) - 1
  {
    hide Progress, Publishes;
    assert !Ends(s, p, step);
  }

  /** Up to the rename. */
  lemma WorkProgress(s: Sys, p: Pid, step: Step, source: Files, dest: Dest)
    requires DirOk(s, ProcOf(s, p)) && Enabled(s, p, step) && ProcOf(s, p).Working? && ProcOf(s, p).source == source
    requires Asks(step, source, dest) && dest !in s.instances
    ensures var next := NextProc(s, p, step);
            Heads(next, source, dest) && !next.Published? && Left(next, source) == Left(ProcOf(s, p), source) - 1
  {
    var proc := ProcOf(s, p);
    assert proc.dir in s.staging && Progress(s.staging[proc.dir].stored, source, proc.copied, proc.done);
    hide DirOk, Publishes;
    assert !Ends(s, p, step);
    if proc.copied == source.Keys { assert |proc.copied| == |source|; }
  }

  /** Nobody else puts it off, but for a fork that takes its destination first. */
  lemma OthersKeep(s: Sys, q: Pid, step: Step, p: Pid, source: Files, dest: Dest)
    requires Inv(s) && Enabled(s, q, step) && q != p && OnTrack(s, p, source, dest)
    requires ProcOf(s, p).Published? || dest !in Apply(s, q, step).instances
    ensures OnTrack(Apply(s, q, step), p, source, dest) && Left(ProcOf(Apply(s, q, step), p), source) == Left(ProcOf(s, p), source)
  {
    hide Apply, Enabled, Inv;
    OtherKeepsProc(s, q, step, p);
    KeptDest(s, q, step, dest);
  }

  ghost predicate Undisturbed(s: Sys, steps: seq<(Pid, Step)>, p: Pid, source: Files, dest: Dest)
    requires IsRun(s, steps)
    decreases |steps|
  {
    steps == [] || (
      var q, step := steps[0].0, steps[0].1;
      && (if q == p then Asks(step, source, dest) else ProcOf(s, p).Published? || dest !in Apply(s, q, step).instances)
      && Undisturbed(Apply(s, q, step), steps[1..], p, source, dest))
  }

  function OwnSteps(steps: seq<(Pid, Step)>, p: Pid): nat
    decreases |steps|
  {
    if steps == [] then 0 else (if steps[0].0 == p then 1 else 0) + OwnSteps(steps[1..], p)
  }

  /** Whatever other forks and cleanups do, each of a fork's calls counts, and with the last the
      destination has the whole source, committed. */
  lemma {:induction false} ForkIsPublished(s: Sys, steps: seq<(Pid, Step)>, p: Pid, source: Files, dest: Dest)
    requires Inv(s) && IsRun(s, steps) && OnTrack(s, p, source, dest) && Undisturbed(s, steps, p, source, dest)
    ensures OnTrack(After(s, steps), p, source, dest)
    ensures OwnSteps(steps, p) + Left(ProcOf(After(s, steps), p), source) == Left(ProcOf(s, p), source)
    ensures OwnSteps(steps, p) == Left(ProcOf(s, p), source) ==>
              dest in After(s, steps).instances && After(s, steps).instances[dest] == Stored(source, true)
    decreases |steps|
  {
    hide Inv, OnTrack, Left, Enabled, Apply, Asks;
    if steps != [] {
      var q, step := steps[0].0, steps[0].1;
      InvStep(s, q, step);
      if q == p { OwnProgress(s, p, step, source, dest); } else { OthersKeep(s, q, step, p, source, dest); }
      ForkIsPublished(Apply(s, q, step), steps[1..], p, source, dest);
    } else {
      assert ProcOk(s, p) by { AllOk(s, p); }
      NothingLeft(s, p, source, dest);
    }
  }

  lemma AllOk(s: Sys, p: Pid)
    requires Inv(s)
    ensures ProcOk(s, p)
  {
  }

  lemma NothingLeft(s: Sys, p: Pid, source: Files, dest: Dest)
    requires OnTrack(s, p, source, dest) && ProcOk(s, p)
    ensures Left(ProcOf(s, p), source) >= 0
    ensures Left(ProcOf(s, p), source) == 0 ==> dest in s.instances && s.instances[dest] == Stored(source, true)
  {
    var proc := ProcOf(s, p);
    if proc.Working? { Smaller(proc.copied, source); }
  }

  lemma Smaller(names: set<Name>, files: Files)
    ensures names <= files.Keys ==> |names| <= |files|
    ensures names <= files.Keys && |names| == |files| ==> names == files.Keys
  {
    if names <= files.Keys {
      var rest := files.Keys - names;
      assert files.Keys == names + rest;
      assert |files.Keys| == |names| + |rest|;
    }
  }

  // ------------------------------------------------------------ leases

  predicate Leasing(proc: Proc) { proc.LeaseMade? || HasLease(proc) }

  /** A locked lease belongs to the process that locked it. */
  ghost predicate LeaseOk(s: Sys, l: Lease) {
    l in s.leases ==> l < s.nextLease && HasLease(ProcOf(s, s.leases[l])) && ProcOf(s, s.leases[l]).lease == l
  }

  ghost predicate LeasesApart(s: Sys, p: Pid, q: Pid) {
    p != q && Leasing(ProcOf(s, p)) && Leasing(ProcOf(s, q)) ==> ProcOf(s, p).lease != ProcOf(s, q).lease
  }

  ghost predicate LeaseInv(s: Sys) { (forall l :: LeaseOk(s, l)) && (forall p, q :: LeasesApart(s, p, q)) }

  /** A process keeps its lease or makes a new one. */
  lemma NextLeasing(s: Sys, p: Pid, step: Step)
    requires Enabled(s, p, step) && Leasing(NextProc(s, p, step))
    ensures var proc, next := ProcOf(s, p), NextProc(s, p, step);
            || (Leasing(proc) && next.lease == proc.lease && (HasLease(next) <==> HasLease(proc) || step.LockLease?))
            || (step.MakeLease? && next.lease == s.nextLease && next.LeaseMade?)
  {
    hide Publishes;
  }

  lemma KeepsLease(s: Sys, p: Pid, step: Step)
    requires Enabled(s, p, step) && HasLease(ProcOf(s, p)) && !Ends(s, p, step)
    ensures HasLease(NextProc(s, p, step)) && NextProc(s, p, step).lease == ProcOf(s, p).lease
  {
    hide Publishes;
  }

  lemma LeaseStep(s: Sys, p: Pid, step: Step, l: Lease)
    requires LocksOk(s, p) && Enabled(s, p, step) && LeaseOk(s, l)
    ensures LeaseOk(Apply(s, p, step), l)
  {
    hide NextStaging, NextGuards, Ends, NextProc, LocksOk;
    var t, proc := Apply(s, p, step), ProcOf(s, p);
    if l in t.leases {
      if step.LockLease? && l == proc.lease {
        Locked(s, p);
      } else if t.leases[l] == p {
        KeepsLease(s, p, step);
      } else {
        OtherKeepsProc(s, p, step, t.leases[l]);
      }
    }
  }

  lemma Locked(s: Sys, p: Pid)
    requires LocksOk(s, p) && Enabled(s, p, LockLease)
    ensures var t, l := Apply(s, p, LockLease), ProcOf(s, p).lease;
            l < t.nextLease && HasLease(ProcOf(t, p)) && ProcOf(t, p).lease == l && t.leases == s.leases[l := p]
  {
    hide NextStaging, NextGuards;
  }

  lemma ApartStep(s: Sys, p: Pid, step: Step, q: Pid)
    requires Enabled(s, p, step) && LeasesApart(s, p, q) && LocksOk(s, q)
    ensures LeasesApart(Apply(s, p, step), p, q) && LeasesApart(Apply(s, p, step), q, p)
  {
    hide NextStaging, NextGuards, NextLeases, Ends, NextProc;
    if p != q && Leasing(NextProc(s, p, step)) { NextLeasing(s, p, step); }
  }

  lemma LeaseInvStep(s: Sys, p: Pid, step: Step)
    requires Inv(s) && LeaseInv(s) && Enabled(s, p, step)
    ensures LeaseInv(Apply(s, p, step))
  {
    hide Inv, Enabled, Apply, LocksOk, DirOk, ListOk, LeaseOk;
    var t := Apply(s, p, step);
    AllOk(s, p);
    forall l ensures LeaseOk(t, l) { LeaseStep(s, p, step, l); }
    forall q, r ensures LeasesApart(t, q, r) {
      assert LeasesApart(s, q, r) && LeasesApart(s, p, q) && LeasesApart(s, p, r);
      AllOk(s, q);
      AllOk(s, r);
      hide LeasesApart;
      if q == p { ApartStep(s, p, step, r); }
      else if r == p { ApartStep(s, p, step, q); }
      else { ApartOther(s, p, step, q, r); }
    }
  }

  lemma ApartOther(s: Sys, p: Pid, step: Step, q: Pid, r: Pid)
    requires Enabled(s, p, step) && LeasesApart(s, q, r) && p != q && p != r
    ensures LeasesApart(Apply(s, p, step), q, r)
  {
    hide Enabled, Apply;
    OtherKeepsProc(s, p, step, q);
    OtherKeepsProc(s, p, step, r);
  }

  lemma {:induction false} LeaseInvRun(s: Sys, steps: seq<(Pid, Step)>)
    requires Inv(s) && LeaseInv(s) && IsRun(s, steps)
    ensures Inv(After(s, steps)) && LeaseInv(After(s, steps))
    decreases |steps|
  {
    hide Apply, Enabled, Inv, LeaseInv;
    if steps != [] {
      InvStep(s, steps[0].0, steps[0].1);
      LeaseInvStep(s, steps[0].0, steps[0].1);
      LeaseInvRun(Apply(s, steps[0].0, steps[0].1), steps[1..]);
    }
  }

  lemma LeasesReachable(steps: seq<(Pid, Step)>)
    requires IsRun(Start, steps)
    ensures Inv(After(Start, steps)) && LeaseInv(After(Start, steps))
  {
    assert LeaseInv(Start);
    hide IsRun, After, Inv, LeaseInv;
    InvStart();
    LeaseInvRun(Start, steps);
  }

  // ------------------------------------------------------------ a fork can always go on

  /** The next call is there to be made: nobody else can have the lease, and only the guard is
      waited for. */
  lemma NextCall(s: Sys, p: Pid, root: Root, source: Files, dest: Dest) returns (step: Step)
    requires Inv(s) && LeaseInv(s) && OnTrack(s, p, source, dest) && !ProcOf(s, p).Published?
    requires ProcOf(s, p) == Idle ==> root !in s.guards
    ensures Asks(step, source, dest) && Enabled(s, p, step)
  {
    AllOk(s, p);
    var proc := ProcOf(s, p);
    if proc.LeaseMade? { NotLocked(s, p); }
    hide Inv, LeaseInv, LocksOk, ListOk;
    match proc
    case Idle => step := LockToCreate(root);
    case Creating(_) => step := MakeDir;
    case Made(_, _) => step := MakeLease;
    case LeaseMade(_, _, _) => step := LockLease;
    case Leased(_, _, _) => step := DropGuard(source);
    case Working(_, _, _, copied, done) =>
      if copied != source.Keys {
        assert source.Keys == copied + (source.Keys - copied);
        var n :| n in source.Keys - copied;
        step := CopyFile(n);
      } else if !done { step := CommitRecord; } else { step := SeeDestAbsent(dest); }
    case _ => step := Rename;
  }

  lemma NotLocked(s: Sys, p: Pid)
    requires LeaseInv(s) && ProcOf(s, p).LeaseMade?
    ensures ProcOf(s, p).lease !in s.leases
  {
    LeaseIsMine(s, p, ProcOf(s, p).lease);
  }

  lemma LeaseIsMine(s: Sys, p: Pid, l: Lease)
    requires LeaseInv(s) && Leasing(ProcOf(s, p)) && ProcOf(s, p).lease == l
    ensures l in s.leases ==> s.leases[l] == p && HasLease(ProcOf(s, p))
  {
    assert LeaseOk(s, l);
    if l in s.leases { assert LeasesApart(s, p, s.leases[l]); }
  }

  /** From wherever it is, on its own, a fork whose destination is free can finish, in as many
      calls as it has left. */
  lemma ForkCanFinish(s: Sys, p: Pid, root: Root, source: Files, dest: Dest) returns (steps: seq<(Pid, Step)>)
    requires Inv(s) && LeaseInv(s) && OnTrack(s, p, source, dest)
    requires ProcOf(s, p) == Idle ==> root !in s.guards
    ensures IsRun(s, steps) && |steps| == Left(ProcOf(s, p), source)
    ensures forall i :: 0 <= i < |steps| ==> steps[i].0 == p
    ensures dest in After(s, steps).instances && After(s, steps).instances[dest] == Stored(source, true)
    decreases Left(ProcOf(s, p), source)
  {
    AllOk(s, p);
    NothingLeft(s, p, source, dest);
    if ProcOf(s, p).Published? {
      steps := [];
    } else {
      hide Inv, LeaseInv, Enabled, Apply, Heads, Left, Asks, ProcOk;
      var step := NextCall(s, p, root, source, dest);
      var t := Apply(s, p, step);
      OwnProgress(s, p, step, source, dest);
      InvStep(s, p, step);
      LeaseInvStep(s, p, step);
      StillGoing(s, p, step, source, dest);
      var rest := ForkCanFinish(t, p, root, source, dest);
      steps := [(p, step)] + rest;
      assert steps[1..] == rest;
    }
  }

  lemma StillGoing(s: Sys, p: Pid, step: Step, source: Files, dest: Dest)
    requires Inv(s) && Enabled(s, p, step) && OnTrack(s, p, source, dest) && Asks(step, source, dest)
    ensures ProcOf(Apply(s, p, step), p) != Idle
    ensures Left(ProcOf(s, p), source) > 0
  {
    hide Apply, Inv, Enabled, NextProc;
    OwnProgress(s, p, step, source, dest);
    InvStep(s, p, step);
    AllOk(s, p);
    AllOk(Apply(s, p, step), p);
    NothingLeft(s, p, source, dest);
    NothingLeft(Apply(s, p, step), p, source, dest);
    LeftBounds(ProcOf(s, p), source);
  }

  lemma LeftBounds(proc: Proc, source: Files)
    ensures Left(proc, source) <= |source| + 8
  {
  }

  /** A fork that fails removes its directory and ends; nothing is published, and its lease is
      free. */
  lemma FailedForkIsGone(s: Sys, p: Pid)
    requires Inv(s) && ProcOf(s, p).Working?
    ensures Enabled(s, p, Fail) && Enabled(Apply(s, p, Fail), p, RemoveDir)
    ensures var proc, t := ProcOf(s, p), Apply(Apply(s, p, Fail), p, RemoveDir);
            && ProcOf(t, p) == Idle && proc.dir !in t.staging && proc.lease !in t.leases && t.instances == s.instances
  {
    AllOk(s, p);
    var t := Apply(s, p, Fail);
    assert ProcOf(t, p) == Discarding(ProcOf(s, p).dir, ProcOf(s, p).lease) && t.leases == s.leases && t.instances == s.instances;
    hide Inv, ListOk, DirOk, NextGuards;
  }

  // ------------------------------------------------------------ a fork that is killed

  /** Killed at any point, a fork leaves a directory no live process owns. */
  lemma KilledForkIsDead(s: Sys, p: Pid)
    requires Inv(s) && LeaseInv(s) && Forking(ProcOf(s, p))
    ensures Dead(Apply(s, p, Kill), ProcOf(s, p).dir)
  {
    var d, t := ProcOf(s, p).dir, Apply(s, p, Kill);
    AllOk(s, p);
    forall q | HasDir(ProcOf(t, q)) ensures ProcOf(t, q).dir != d {
      assert PairOk(s, p, q);
    }
    if d in t.staging && t.staging[d].lease.Some? {
      var l := t.staging[d].lease.value;
      assert StagingOk(s, d);
      forall q | ProcOf(t, q).LeaseMade? ensures ProcOf(t, q).lease != l { assert LeasesApart(s, p, q); }
      LeaseIsMine(s, p, l);
    }
  }

  lemma KillLeaves(s: Sys, p: Pid)
    ensures Apply(s, p, Kill).staging == s.staging
  {
    hide NextProc, NextGuards, NextLeases;
  }

  /** The next cleanup of its root takes it away, whatever other processes do meanwhile. */
  lemma KilledForkIsRemoved(before: seq<(Pid, Step)>, p: Pid, q: Pid, root: Root, steps: seq<(Pid, Step)>)
    requires IsRun(Start, before) && Forking(ProcOf(After(Start, before), p))
    requires var s := After(Start, before); var d := ProcOf(s, p).dir; d in s.staging && s.staging[d].root == root
    requires var s := Apply(After(Start, before), p, Kill);
             && Enabled(s, q, LockToClean(root))
             && var t := Apply(s, q, LockToClean(root));
                IsRun(t, steps) && Stays(t, steps, q) && Enabled(After(t, steps), q, StopCleaning)
    ensures var t := Apply(Apply(After(Start, before), p, Kill), q, LockToClean(root));
            ProcOf(After(Start, before), p).dir !in After(t, steps).staging
  {
    hide Inv, LeaseInv, Dead, Stays, Apply, IsRun, After;
    LeasesReachable(before);
    var s := After(Start, before);
    KilledForkIsDead(s, p);
    KillLeaves(s, p);
    OneMore(before, p, Kill);
    DeadForkIsRemoved(before + [(p, Kill)], q, root, ProcOf(s, p).dir, steps);
  }

  lemma OneMore(before: seq<(Pid, Step)>, p: Pid, step: Step)
    requires IsRun(Start, before) && Enabled(After(Start, before), p, step)
    ensures IsRun(Start, before + [(p, step)])
    ensures After(Start, before + [(p, step)]) == Apply(After(Start, before), p, step)
  {
    OneMoreFrom(Start, before, p, step);
  }

  lemma {:induction false} OneMoreFrom(s: Sys, before: seq<(Pid, Step)>, p: Pid, step: Step)
    requires IsRun(s, before) && Enabled(After(s, before), p, step)
    ensures IsRun(s, before + [(p, step)]) && After(s, before + [(p, step)]) == Apply(After(s, before), p, step)
    decreases |before|
  {
    hide Enabled, Apply;
    var steps := before + [(p, step)];
    if before == [] {
      assert steps[1..] == [];
    } else {
      OneMoreFrom(Apply(s, before[0].0, before[0].1), before[1..], p, step);
      assert steps[1..] == before[1..] + [(p, step)];
    }
  }
}
