/**
  The crash model. A disk is what was durable at boot (`base`) and everything
  issued since (`log`): writes to locations, and syncs.

  `Allowed` is the whole assumption about the hardware and the file system:
  - a sync orders the earlier writes of its own file or directory before every
    later write (src/store.rs:18-23, src/store.rs:123-133);
  - on a `journaled` file system, directory updates also reach the disk in the
    order they were issued (specs/tla/README.md, "journal prefix");

  Anything else may be lost, in any combination. `FlushedCrashState` adds the
  stronger promise of the `sync_all` branch (src/store.rs:132), that a synced
  write is durable and not just ordered.
 */
module Journal {
  import opened Layout

  datatype Entry = Put(loc: Loc, val: Val) | Sync(obj: Obj)

  /** The disk after a crash that kept exactly the writes numbered in `keep`. */
  function Survive(base: Fs, log: seq<Entry>, keep: set<nat>): Fs
    decreases |log|
  {
    if log == [] then base
    else
      var last := log[|log| - 1];
      var before := Survive(base, log[..|log| - 1], keep);
      if last.Put? && (|log| - 1) in keep then before[last.loc := last.val] else before
  }

  /** What running processes see: every write applied. */
  function View(base: Fs, log: seq<Entry>): Fs
    decreases |log|
  {
    if log == [] then base
    else
      var last := log[|log| - 1];
      var before := View(base, log[..|log| - 1]);
      if last.Put? then before[last.loc := last.val] else before
  }

  predicate Covers(log: seq<Entry>, i: nat, b: nat) {
    i < b < |log| && log[i].Put? && log[b] == Sync(ObjOf(log[i].loc))
  }

  ghost predicate Synced(log: seq<Entry>, i: nat) {
    exists b: nat :: Covers(log, i, b)
  }

  predicate IsPut(log: seq<Entry>, i: nat) {
    i < |log| && log[i].Put?
  }

  predicate MetaPut(log: seq<Entry>, i: nat) {
    i < |log| && log[i].Put? && IsMeta(log[i].loc)
  }

  predicate BarrierClosed(log: seq<Entry>, keep: set<nat>) {
    forall i: nat, b: nat, j: nat ::
      i < |log| && b < |log| && j < |log| && Covers(log, i, b) && b < j && IsPut(log, j) && j in keep ==> i in keep
  }

  predicate MetaPrefix(log: seq<Entry>, keep: set<nat>) {
    forall i: nat, j: nat :: i < |log| && j < |log| && i < j && MetaPut(log, i) && MetaPut(log, j) && j in keep ==> i in keep
  }

  ghost predicate KeepsSynced(log: seq<Entry>, keep: set<nat>) {
    forall i: nat :: Synced(log, i) ==> i in keep
  }

  ghost predicate KeepsMeta(log: seq<Entry>, keep: set<nat>) {
    forall i: nat :: MetaPut(log, i) ==> i in keep
  }

  /** Which sets of writes a crash may keep. */
  predicate Allowed(log: seq<Entry>, keep: set<nat>, journaled: bool) {
    && BarrierClosed(log, keep)
    && (journaled ==> MetaPrefix(log, keep))
  }

  ghost predicate CrashState(base: Fs, log: seq<Entry>, journaled: bool, fs: Fs) {
    exists keep: set<nat> :: Allowed(log, keep, journaled) && fs == Survive(base, log, keep)
  }

  /** A crash state that a further write to `l` could extend: everything that
      write is ordered after is in it. */
  ghost predicate Forced(log: seq<Entry>, keep: set<nat>, journaled: bool, l: Loc) {
    && Allowed(log, keep, journaled)
    && KeepsSynced(log, keep)
    && (journaled && IsMeta(l) ==> KeepsMeta(log, keep))
  }

  ghost predicate ForcedState(base: Fs, log: seq<Entry>, journaled: bool, l: Loc, fs: Fs) {
    exists keep: set<nat> :: Forced(log, keep, journaled, l) && fs == Survive(base, log, keep)
  }

  /** Locations with a write that no sync has covered yet. */
  function Pending(log: seq<Entry>): set<Loc>
    decreases |log|
  {
    if log == [] then {}
    else
      var last := log[|log| - 1];
      var before := Pending(log[..|log| - 1]);
      match last
      case Put(l, _) => before + {l}
      case Sync(o) => set l | l in before && ObjOf(l) != o
  }

  lemma {:induction false} NotPendingIsSynced(log: seq<Entry>, i: nat)
    requires IsPut(log, i) && log[i].loc !in Pending(log)
    ensures Synced(log, i)
  {
    var n := |log| - 1;
    var front := log[..n];
    if i < n {
      assert front[i] == log[i];
      if log[n].Sync? && log[n].obj == ObjOf(log[i].loc) {
        assert Covers(log, i, n);
      } else {
        NotPendingIsSynced(front, i);
        var b: nat :| Covers(front, i, b);
        assert Covers(log, i, b);
      }
    }
  }

  /** A crash that keeps every write to `l` shows the current value of `l`. */
  lemma {:induction false} AgreesAt(base: Fs, log: seq<Entry>, keep: set<nat>, l: Loc)
    requires forall i: nat :: IsPut(log, i) && log[i].loc == l ==> i in keep
    ensures Get(Survive(base, log, keep), l) == Get(View(base, log), l)
    decreases |log|
  {
    if log != [] {
      var n := |log| - 1;
      var front := log[..n];
      forall i: nat | IsPut(front, i) && front[i].loc == l ensures i in keep {
        assert IsPut(log, i) && log[i] == front[i];
      }
      AgreesAt(base, front, keep, l);
      if log[n].Put? && log[n].loc == l {
        assert IsPut(log, n);
      }
    }
  }

  /** Locations that are stable look the same in every forced state. */
  lemma ForcedShowsStable(base: Fs, log: seq<Entry>, journaled: bool, at: Loc, fs: Fs, l: Loc)
    requires ForcedState(base, log, journaled, at, fs)
    requires l !in Pending(log) || (journaled && IsMeta(l) && IsMeta(at))
    ensures Get(fs, l) == Get(View(base, log), l)
  {
    var keep: set<nat> :| Forced(log, keep, journaled, at) && fs == Survive(base, log, keep);
    forall i: nat | IsPut(log, i) && log[i].loc == l ensures i in keep {
      if l !in Pending(log) {
        NotPendingIsSynced(log, i);
      } else {
        assert MetaPut(log, i);
      }
    }
    AgreesAt(base, log, keep, l);
  }

  lemma {:induction false} SurviveIgnores(base: Fs, log: seq<Entry>, keep: set<nat>, keep': set<nat>)
    requires forall i: nat :: i < |log| ==> (i in keep <==> i in keep')
    ensures Survive(base, log, keep) == Survive(base, log, keep')
    decreases |log|
  {
    if log != [] {
      SurviveIgnores(base, log[..|log| - 1], keep, keep');
    }
  }

  /** The set of kept writes restricted to a prefix of the log is allowed there. */
  lemma AllowedOnPrefix(log: seq<Entry>, e: Entry, keep: set<nat>, journaled: bool)
    requires Allowed(log + [e], keep, journaled)
    ensures Allowed(log, keep, journaled)
  {
    var log' := log + [e];
    forall i: nat, b: nat, j: nat | Covers(log, i, b) && b < j && IsPut(log, j) && j in keep
      ensures i in keep
    {
      assert Covers(log', i, b) && IsPut(log', j);
    }
    forall i: nat, j: nat | i < j && MetaPut(log, i) && MetaPut(log, j) && j in keep && journaled
      ensures i in keep
    {
      assert MetaPut(log', i) && MetaPut(log', j);
    }
  }

  /** A crash after one more write shows a state possible before it, or that
      write on top of a state that has everything it was ordered after. */
  lemma CrashAfterPut(base: Fs, log: seq<Entry>, journaled: bool, l: Loc, v: Val, fs: Fs)
    returns (before: Fs)
    requires CrashState(base, log + [Put(l, v)], journaled, fs)
    ensures
      || (before == fs && CrashState(base, log, journaled, fs))
      || (ForcedState(base, log, journaled, l, before) && CrashState(base, log, journaled, before)
          && fs == before[l := v])
  {
    var log' := log + [Put(l, v)];
    var n := |log|;
    var keep: set<nat> :| Allowed(log', keep, journaled) && fs == Survive(base, log', keep);
    assert log'[..n] == log;
    AllowedOnPrefix(log, Put(l, v), keep, journaled);
    before := Survive(base, log, keep);
    if n in keep {
      assert IsPut(log', n);
      forall i: nat | Synced(log, i) ensures i in keep {
        var b: nat :| Covers(log, i, b);
        assert Covers(log', i, b);
      }
      if journaled && IsMeta(l) {
        forall i: nat | MetaPut(log, i) ensures i in keep {
          assert MetaPut(log', i) && MetaPut(log', n);
        }
      }
      assert Forced(log, keep, journaled, l);
    }
  }

  /** A sync by itself changes nothing a crash can show, except to rule states out. */
  lemma CrashAfterSync(base: Fs, log: seq<Entry>, journaled: bool, o: Obj, fs: Fs)
    requires CrashState(base, log + [Sync(o)], journaled, fs)
    ensures CrashState(base, log, journaled, fs)
  {
    var log' := log + [Sync(o)];
    var keep: set<nat> :| Allowed(log', keep, journaled) && fs == Survive(base, log', keep);
    assert log'[..|log|] == log;
    AllowedOnPrefix(log, Sync(o), keep, journaled);
  }

  predicate Below(i: nat, k: nat) { i < k }

  /** The writes numbered below `k`. */
  function Upto(k: nat): set<nat> {
    set i: nat | i < k && Below(i, k)
  }

  /** Whatever a crash could show at some moment, a crash later in the same boot
      can still show: invariants over the crash states of the final log speak
      about a crash at every point on the way. */
  lemma EarlierCrashStaysPossible(base: Fs, log: seq<Entry>, journaled: bool, k: nat, fs: Fs)
    requires k <= |log| && CrashState(base, log[..k], journaled, fs)
    ensures CrashState(base, log, journaled, fs)
  {
    var front := log[..k];
    var kept: set<nat> :| Allowed(front, kept, journaled) && fs == Survive(base, front, kept);
    var keep := set i: nat | i in kept && Below(i, k);
    forall i: nat, b: nat, j: nat | Covers(log, i, b) && b < j && IsPut(log, j) && j in keep
      ensures i in keep
    {
      assert Covers(front, i, b) && IsPut(front, j);
    }
    forall i: nat, j: nat | i < j && MetaPut(log, i) && MetaPut(log, j) && j in keep && journaled
      ensures i in keep
    {
      assert MetaPut(front, i) && MetaPut(front, j);
    }
    SurviveIgnores(base, front, kept, keep);
    DroppedTail(base, log, keep, k);
  }

  lemma {:induction false} DroppedTail(base: Fs, log: seq<Entry>, keep: set<nat>, k: nat)
    requires k <= |log|
    requires forall i: nat :: i in keep ==> i < k
    ensures Survive(base, log, keep) == Survive(base, log[..k], keep)
    decreases |log|
  {
    if k == |log| {
      assert log[..k] == log;
    } else {
      assert log[..|log| - 1][..k] == log[..k];
      DroppedTail(base, log[..|log| - 1], keep, k);
    }
  }

  /** A kill loses nothing: what processes see is one of the crash states. */
  lemma {:induction false} ViewIsCrashState(base: Fs, log: seq<Entry>, journaled: bool)
    ensures CrashState(base, log, journaled, View(base, log))
  {
    AllSurvive(base, log, |log|);
    assert Allowed(log, Upto(|log|), journaled);
  }

  lemma {:induction false} AllSurvive(base: Fs, log: seq<Entry>, k: nat)
    requires |log| <= k
    ensures Survive(base, log, Upto(k)) == View(base, log)
    decreases |log|
  {
    if log != [] {
      AllSurvive(base, log[..|log| - 1], k);
    }
  }

  /** On a journaled file system the surviving directory updates are those up to one
      moment. */
  lemma {:induction false} MetaCut(log: seq<Entry>, keep: set<nat>) returns (k: nat)
    requires MetaPrefix(log, keep)
    ensures k <= |log| && (k > 0 ==> MetaPut(log, k - 1) && k - 1 in keep)
    ensures forall i: nat :: MetaPut(log, i) ==> (i in keep <==> i < k)
    decreases |log|
  {
    if log == [] {
      k := 0;
    } else {
      var n := |log| - 1;
      var front := log[..n];
      if MetaPut(log, n) && n in keep {
        k := |log|;
      } else {
        forall i: nat, j: nat | i < j && MetaPut(front, i) && MetaPut(front, j) && j in keep
          ensures i in keep
        {
          assert MetaPut(log, i) && MetaPut(log, j);
        }
        k := MetaCut(front, keep);
        forall i: nat | MetaPut(log, i) ensures i in keep <==> i < k {
          if i < n { assert MetaPut(front, i); }
        }
      }
    }
  }

  lemma {:induction false} MetaAtCut(base: Fs, log: seq<Entry>, keep: set<nat>, k: nat, l: Loc)
    requires k <= |log| && IsMeta(l)
    requires forall i: nat :: MetaPut(log, i) ==> (i in keep <==> i < k)
    ensures Get(Survive(base, log, keep), l) == Get(View(base, log[..k]), l)
    decreases |log|
  {
    if log != [] {
      var n := |log| - 1;
      var front := log[..n];
      forall i: nat | MetaPut(front, i) ensures i in keep <==> i < k {
        assert MetaPut(log, i);
      }
      if k <= n {
        MetaAtCut(base, front, keep, k, l);
        assert front[..k] == log[..k];
        assert log[n].Put? && log[n].loc == l ==> MetaPut(log, n);
      } else {
        assert log[..k] == log;
        forall i: nat | IsPut(log, i) && log[i].loc == l ensures i in keep {
          assert MetaPut(log, i);
        }
        AgreesAt(base, log, keep, l);
      }
    }
  }

  /** A crash of a drive whose sync waits until the covered writes are durable. */
  ghost predicate FlushedCrashState(base: Fs, log: seq<Entry>, journaled: bool, fs: Fs) {
    exists keep: set<nat> ::
      Allowed(log, keep, journaled) && KeepsSynced(log, keep) && fs == Survive(base, log, keep)
  }

  /** On such a drive, whatever a sync covered is still there after a crash. */
  lemma FlushedSurvives(base: Fs, log: seq<Entry>, journaled: bool, fs: Fs, l: Loc)
    requires FlushedCrashState(base, log, journaled, fs)
    requires l !in Pending(log)
    ensures CrashState(base, log, journaled, fs)
    ensures Get(fs, l) == Get(View(base, log), l)
  {
    var keep: set<nat> :|
      Allowed(log, keep, journaled) && KeepsSynced(log, keep) && fs == Survive(base, log, keep);
    forall i: nat | IsPut(log, i) && log[i].loc == l ensures i in keep {
      NotPendingIsSynced(log, i);
    }
    AgreesAt(base, log, keep, l);
  }

  // ---------------------------------------------------------------- commit points

  /** The directory entries that commit something: the record's and the references'. */
  predicate IsEntry(l: Loc) { l.RecordEntry? || l.RefEntry? }

  predicate IsCommit(e: Entry) { e.Put? && IsEntry(e.loc) }

  function CommitCount(log: seq<Entry>): nat
    decreases |log|
  {
    if log == [] then 0
    else CommitCount(log[..|log| - 1]) + if IsCommit(log[|log| - 1]) then 1 else 0
  }

  lemma CommitCountMore(log: seq<Entry>, e: Entry)
    ensures CommitCount(log + [e]) == CommitCount(log) + if IsCommit(e) then 1 else 0
  {
    assert (log + [e])[..|log|] == log;
  }

  /** Between two moments without a commit point no committing entry changes. */
  lemma {:induction false} NoCommitBetween(base: Fs, log: seq<Entry>, j: nat, k: nat)
    requires j <= k <= |log|
    ensures CommitCount(log[..j]) <= CommitCount(log[..k])
    ensures CommitCount(log[..j]) == CommitCount(log[..k]) ==>
              forall l | IsEntry(l) :: Get(View(base, log[..j]), l) == Get(View(base, log[..k]), l)
    decreases k - j
  {
    if j < k {
      NoCommitBetween(base, log, j, k - 1);
      assert log[..k][..k - 1] == log[..k - 1];
    }
  }

  /** With one commit point, every moment shows the committing entries of the start
      or those of the end. */
  lemma OneCommitBetween(base: Fs, log: seq<Entry>, j: nat, k: nat)
    requires j <= k <= |log| && CommitCount(log) <= CommitCount(log[..j]) + 1
    ensures || (forall l | IsEntry(l) :: Get(View(base, log[..k]), l) == Get(View(base, log[..j]), l))
            || (forall l | IsEntry(l) :: Get(View(base, log[..k]), l) == Get(View(base, log), l))
  {
    hide View, CommitCount;
    NoCommitBetween(base, log, j, k);
    NoCommitBetween(base, log, k, |log|);
    assert log[..|log|] == log;
  }
}
