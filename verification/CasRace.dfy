/**
  Any number of uploaders storing blocks at once (src/server.rs:2348-2383): each
  checks the path, writes its own temporary file and links it into place, or moves
  it there where links do not work. Every system call is one step; any uploader
  may be killed between two of them.
 */
module CasRace {
  import opened Sparse
  import opened Frames
  import opened Cas
  import Hex

  type Pid = nat
  type Inode = nat

  datatype Uploader =
    | Idle
    | Checked(name: string, raw: seq<Byte>)                                // path seen absent
    | Writing(name: string, raw: seq<Byte>, file: Inode, written: nat)     // temporary file made
    | Moving(name: string, raw: seq<Byte>, file: Inode)                    // hard links do not work

  datatype Sys = Sys(
    paths: map<string, Inode>,
    contents: map<Inode, seq<Byte>>,
    uploaders: map<Pid, Uploader>,
    nextInode: Inode)

  function UploaderOf(s: Sys, p: Pid): Uploader { if p in s.uploaders then s.uploaders[p] else Idle }

  datatype Step =
    | Begin(name: string, raw: seq<Byte>)    // checks the block, then the path
    | MakeTemp
    | Write(count: nat)
    | Link                                   // done too if the path exists by now
    | LinkFails
    | Rename
    | Kill

  predicate Enabled(sha: Hash, s: Sys, p: Pid, step: Step) {
    var u := UploaderOf(s, p);
    match step
    case Begin(name, raw) => u == Idle && |raw| <= CAS_BLOCK_SIZE && NameOf(sha, raw) == name && name != ZeroName(sha)
    case MakeTemp => u.Checked?
    case Write(count) => u.Writing? && u.written + count <= |u.raw|
    case Link => u.Writing? && u.written == |u.raw|
    case LinkFails => u.Writing? && u.written == |u.raw|
    case Rename => u.Moving?
    case Kill => true
  }

  function NextUploader(s: Sys, p: Pid, step: Step): Uploader {
    var u := UploaderOf(s, p);
    match step
    case Begin(name, raw) => if name in s.paths then Idle else Checked(name, raw)
    case MakeTemp => if u.Checked? then Writing(u.name, u.raw, s.nextInode, 0) else u
    case Write(count) => if u.Writing? then u.(written := u.written + count) else u
    case LinkFails => if u.Writing? then Moving(u.name, u.raw, u.file) else u
    case _ => Idle
  }

  function Apply(sha: Hash, s: Sys, p: Pid, step: Step): Sys
    requires Enabled(sha, s, p, step)
  {
    var u := UploaderOf(s, p);
    Sys(
      if step.Rename? || (step.Link? && u.name !in s.paths) then s.paths[u.name := u.file] else s.paths,
      if step.MakeTemp? then s.contents[s.nextInode := []]
      else if step.Write? then s.contents[u.file := u.raw[..u.written + step.count]]
      else s.contents,
      s.uploaders[p := NextUploader(s, p, step)],
      if step.MakeTemp? then s.nextInode + 1 else s.nextInode)
  }

  predicate IsRun(sha: Hash, s: Sys, steps: seq<(Pid, Step)>)
    decreases |steps|
  {
    steps == [] || (Enabled(sha, s, steps[0].0, steps[0].1) && IsRun(sha, Apply(sha, s, steps[0].0, steps[0].1), steps[1..]))
  }

  function After(sha: Hash, s: Sys, steps: seq<(Pid, Step)>): Sys
    requires IsRun(sha, s, steps)
    decreases |steps|
  {
    if steps == [] then s else After(sha, Apply(sha, s, steps[0].0, steps[0].1), steps[1..])
  }

  const Start := Sys(map[], map[], map[], 0)

  // ------------------------------------------------------------ the invariant

  predicate HasFile(u: Uploader) { u.Writing? || u.Moving? }

  ghost predicate UploaderOk(sha: Hash, s: Sys, p: Pid) {
    var u := UploaderOf(s, p);
    && (u != Idle ==> |u.raw| <= CAS_BLOCK_SIZE && NameOf(sha, u.raw) == u.name && u.name != ZeroName(sha))
    && (HasFile(u) ==> u.file < s.nextInode && u.file in s.contents)
    && (u.Writing? ==> u.written <= |u.raw| && s.contents[u.file] == u.raw[..u.written])
    && (u.Moving? ==> s.contents[u.file] == u.raw)
  }

  /** No two uploaders write the same file. */
  ghost predicate OwnFiles(s: Sys, p: Pid, q: Pid) {
    p != q && HasFile(UploaderOf(s, p)) && HasFile(UploaderOf(s, q)) ==> UploaderOf(s, p).file != UploaderOf(s, q).file
  }

  /** A path that exists holds a whole block under its name, and nobody is still writing it. */
  ghost predicate PathOk(sha: Hash, s: Sys, name: string) {
    name in s.paths ==>
      && s.paths[name] in s.contents && s.paths[name] < s.nextInode
      && |s.contents[s.paths[name]]| <= CAS_BLOCK_SIZE
      && NameOf(sha, s.contents[s.paths[name]]) == name && name != ZeroName(sha)
  }

  ghost predicate NotShared(s: Sys, name: string, p: Pid) {
    name in s.paths && HasFile(UploaderOf(s, p)) ==> s.paths[name] != UploaderOf(s, p).file
  }

  ghost predicate Inv(sha: Hash, s: Sys) {
    && (forall p :: UploaderOk(sha, s, p))
    && (forall p, q :: OwnFiles(s, p, q))
    && (forall name :: PathOk(sha, s, name))
    && (forall name, p :: NotShared(s, name, p))
  }

  lemma OwnStep(sha: Hash, s: Sys, p: Pid, step: Step)
    requires UploaderOk(sha, s, p) && Enabled(sha, s, p, step)
    ensures UploaderOk(sha, Apply(sha, s, p, step), p)
  {
    hide NameOf, ZeroName;
  }

  lemma OtherStep(sha: Hash, s: Sys, p: Pid, step: Step, q: Pid)
    requires UploaderOk(sha, s, p) && UploaderOk(sha, s, q) && OwnFiles(s, p, q) && Enabled(sha, s, p, step) && p != q
    ensures UploaderOk(sha, Apply(sha, s, p, step), q)
    ensures OwnFiles(Apply(sha, s, p, step), p, q) && OwnFiles(Apply(sha, s, p, step), q, p)
  {
    hide NameOf, ZeroName;
  }

  lemma PathStep(sha: Hash, s: Sys, p: Pid, step: Step, name: string)
    requires UploaderOk(sha, s, p) && PathOk(sha, s, name) && NotShared(s, name, p) && Enabled(sha, s, p, step)
    ensures PathOk(sha, Apply(sha, s, p, step), name)
    ensures name in s.paths ==> name in Apply(sha, s, p, step).paths
  {
    hide NameOf, ZeroName;
    var u := UploaderOf(s, p);
    if u.Writing? && u.written == |u.raw| { assert u.raw[..u.written] == u.raw; }
  }

  lemma SharedStep(sha: Hash, s: Sys, p: Pid, step: Step, name: string, q: Pid)
    requires UploaderOk(sha, s, p) && UploaderOk(sha, s, q) && OwnFiles(s, p, q) && PathOk(sha, s, name)
    requires NotShared(s, name, p) && NotShared(s, name, q) && Enabled(sha, s, p, step)
    ensures NotShared(Apply(sha, s, p, step), name, q)
  {
    hide NameOf, ZeroName;
  }

  lemma InvStep(sha: Hash, s: Sys, p: Pid, step: Step)
    requires Inv(sha, s) && Enabled(sha, s, p, step)
    ensures Inv(sha, Apply(sha, s, p, step))
  {
    hide Apply, Enabled, UploaderOk, OwnFiles, PathOk, NotShared;
    var t := Apply(sha, s, p, step);
    forall q ensures UploaderOk(sha, t, q) {
      if q == p { OwnStep(sha, s, p, step); } else { OtherStep(sha, s, p, step, q); }
    }
    forall q, r ensures OwnFiles(t, q, r) {
      if q == r { OwnSelf(t, q); }
      else if q == p { OtherStep(sha, s, p, step, r); }
      else if r == p { OtherStep(sha, s, p, step, q); }
      else { OwnOthers(sha, s, p, step, q, r); }
    }
    forall name ensures PathOk(sha, t, name) { PathStep(sha, s, p, step, name); }
    forall name, q ensures NotShared(t, name, q) { SharedStep(sha, s, p, step, name, q); }
  }

  lemma OwnSelf(s: Sys, p: Pid)
    ensures OwnFiles(s, p, p)
  {
  }

  lemma OwnOthers(sha: Hash, s: Sys, p: Pid, step: Step, q: Pid, r: Pid)
    requires OwnFiles(s, q, r) && Enabled(sha, s, p, step) && p != q && p != r
    ensures OwnFiles(Apply(sha, s, p, step), q, r)
  {
    hide NameOf, ZeroName;
  }

  lemma {:induction false} InvRun(sha: Hash, s: Sys, steps: seq<(Pid, Step)>)
    requires Inv(sha, s) && IsRun(sha, s, steps)
    ensures Inv(sha, After(sha, s, steps))
    decreases |steps|
  {
    hide Apply, Enabled, Inv;
    if steps != [] {
      InvStep(sha, s, steps[0].0, steps[0].1);
      InvRun(sha, Apply(sha, s, steps[0].0, steps[0].1), steps[1..]);
    }
  }

  // ------------------------------------------------------------ the theorems

  /** What a reader sees of the store. */
  ghost function Visible(sha: Hash, s: Sys): Blocks
    requires Inv(sha, s)
  {
    map name | name in s.paths :: assert PathOk(sha, s, name); s.contents[s.paths[name]]
  }

  lemma StartOk(sha: Hash)
    ensures Inv(sha, Start)
  {
  }

  /** However the uploaders interleave, readers see a good store: a path that
      exists holds at most 64 KiB that hash to its name. */
  lemma EveryPathIsABlock(sha: Hash, steps: seq<(Pid, Step)>)
    requires IsRun(sha, Start, steps)
    ensures Inv(sha, After(sha, Start, steps)) && GoodBlocks(sha, Visible(sha, After(sha, Start, steps)))
  {
    hide IsRun, After, NameOf, ZeroName;
    StartOk(sha);
    InvRun(sha, Start, steps);
    var s := After(sha, Start, steps);
    assert forall name :: name in s.paths ==> PathOk(sha, s, name);
  }

  /** And the store only grows: no step takes a block away, or changes the bytes of
      one the digest tells from the others. */
  lemma StoreOnlyGrows(sha: Hash, steps: seq<(Pid, Step)>, p: Pid, step: Step, name: string)
    requires IsRun(sha, Start, steps) && Enabled(sha, After(sha, Start, steps), p, step)
    requires name in After(sha, Start, steps).paths
    ensures var s := After(sha, Start, steps);
            var t := Apply(sha, s, p, step);
            && Inv(sha, s) && Inv(sha, t) && name in Visible(sha, s) && name in Visible(sha, t)
            && sha(Visible(sha, t)[name]) == sha(Visible(sha, s)[name])
            && (Visible(sha, t)[name] == Visible(sha, s)[name] || step.Rename?)
  {
    hide IsRun, After, NameOf, ZeroName;
    StartOk(sha);
    InvRun(sha, Start, steps);
    var s := After(sha, Start, steps);
    InvStep(sha, s, p, step);
    SameDigest(sha, s, p, step, name);
  }

  lemma SameDigest(sha: Hash, s: Sys, p: Pid, step: Step, name: string)
    requires Inv(sha, s) && Enabled(sha, s, p, step) && name in s.paths && Inv(sha, Apply(sha, s, p, step))
    ensures var t := Apply(sha, s, p, step);
            && name in t.paths && name in Visible(sha, s) && name in Visible(sha, t)
            && sha(Visible(sha, t)[name]) == sha(Visible(sha, s)[name])
            && (Visible(sha, t)[name] == Visible(sha, s)[name] || step.Rename?)
  {
    var t := Apply(sha, s, p, step);
    assert PathOk(sha, s, name) && PathOk(sha, t, name) && UploaderOk(sha, s, p) && NotShared(s, name, p);
    assert name in t.paths;
    Hex.HexIsInjective(sha(t.contents[t.paths[name]]), sha(s.contents[s.paths[name]]));
  }
}
