/**
  A push while any number of other uploaders store blocks in the same server: between
  any two system calls of the server on the client's behalf, the others take any steps
  of theirs. What is visible only grows under them, so the push is still the identity.
 */
module PushRace {
  import opened Layout
  import opened Sparse
  import opened Hex
  import opened Frames
  import opened Manifests
  import opened Cas
  import opened Push
  import R = CasRace

  /** Everything stored or being stored is among these blocks. */
  ghost predicate RawsIn(s: R.Sys, universe: iset<seq<Byte>>) {
    && (forall p :: R.UploaderOf(s, p) != R.Idle ==> R.UploaderOf(s, p).raw in universe)
    && (forall name :: name in s.paths && s.paths[name] in s.contents ==> s.contents[s.paths[name]] in universe)
  }

  ghost predicate StepIn(step: R.Step, universe: iset<seq<Byte>>) { step.Begin? ==> step.raw in universe }

  ghost predicate StepsIn(steps: seq<(R.Pid, R.Step)>, me: R.Pid, universe: iset<seq<Byte>>) {
    forall i :: 0 <= i < |steps| ==> steps[i].0 != me && StepIn(steps[i].1, universe)
  }

  /** Where the digest tells the blocks apart, no uploader's step takes a visible block
      away or changes it, the move over an existing path included. */
  lemma StepGrows(sha: Hash, s: R.Sys, p: R.Pid, step: R.Step, universe: iset<seq<Byte>>)
    requires R.Inv(sha, s) && R.Enabled(sha, s, p, step) && RawsIn(s, universe) && StepIn(step, universe)
    requires CollisionFree(sha, universe)
    ensures var t := R.Apply(sha, s, p, step);
            R.Inv(sha, t) && RawsIn(t, universe) && Grown(R.Visible(sha, s), R.Visible(sha, t))
  {
    var t := R.Apply(sha, s, p, step);
    R.InvStep(sha, s, p, step);
    RawsStay(sha, s, p, step, universe);
    forall name | name in s.paths
      ensures name in R.Visible(sha, t) && R.Visible(sha, t)[name] == R.Visible(sha, s)[name]
    {
      hide R.Apply, R.Enabled;
      R.SameDigest(sha, s, p, step, name);
      assert R.PathOk(sha, s, name) && R.PathOk(sha, t, name);
    }
  }

  lemma RawsStay(sha: Hash, s: R.Sys, p: R.Pid, step: R.Step, universe: iset<seq<Byte>>)
    requires R.Inv(sha, s) && R.Enabled(sha, s, p, step) && RawsIn(s, universe) && StepIn(step, universe)
    ensures RawsIn(R.Apply(sha, s, p, step), universe)
  {
    hide NameOf, ZeroName;
    var t, u := R.Apply(sha, s, p, step), R.UploaderOf(s, p);
    assert R.UploaderOk(sha, s, p);
    forall q | R.UploaderOf(t, q) != R.Idle ensures R.UploaderOf(t, q).raw in universe {
      if q != p { assert R.UploaderOf(t, q) == R.UploaderOf(s, q); }
    }
    if u.Writing? && u.written == |u.raw| { assert u.raw[..u.written] == u.raw; }
    forall name | name in t.paths && t.paths[name] in t.contents ensures t.contents[t.paths[name]] in universe {
      if name in s.paths { assert R.PathOk(sha, s, name) && R.NotShared(s, name, p); }
    }
  }

  lemma {:induction false} RunGrows(sha: Hash, s: R.Sys, steps: seq<(R.Pid, R.Step)>, me: R.Pid, universe: iset<seq<Byte>>)
    requires R.Inv(sha, s) && R.IsRun(sha, s, steps) && RawsIn(s, universe) && StepsIn(steps, me, universe)
    requires CollisionFree(sha, universe)
    ensures var t := R.After(sha, s, steps);
            && R.Inv(sha, t) && RawsIn(t, universe) && Grown(R.Visible(sha, s), R.Visible(sha, t))
            && R.UploaderOf(t, me) == R.UploaderOf(s, me)
    decreases |steps|
  {
    hide R.Apply, R.Enabled, R.Inv, RawsIn, CollisionFree, StepIn;
    if steps != [] {
      var p, step := steps[0].0, steps[0].1;
      assert steps[0].0 != me && StepIn(steps[0].1, universe);
      StepGrows(sha, s, p, step, universe);
      OthersKeep(sha, s, p, step, me);
      RunGrows(sha, R.Apply(sha, s, p, step), steps[1..], me, universe);
    }
  }

  lemma OthersKeep(sha: Hash, s: R.Sys, p: R.Pid, step: R.Step, me: R.Pid)
    requires R.Enabled(sha, s, p, step) && p != me
    ensures R.UploaderOf(R.Apply(sha, s, p, step), me) == R.UploaderOf(s, me)
  {
  }

  lemma VisibleIsGood(sha: Hash, s: R.Sys, universe: iset<seq<Byte>>)
    requires R.Inv(sha, s) && RawsIn(s, universe)
    ensures GoodBlocks(sha, R.Visible(sha, s)) && StoredIn(R.Visible(sha, s), universe)
  {
    hide NameOf, ZeroName;
    forall name | name in s.paths ensures R.PathOk(sha, s, name) {}
  }

  /** What was readable stays readable and reads the same. */
  lemma RebuiltStays(sha: Hash, was: Blocks, now: Blocks, list: seq<Block>, n: nat, bytes: seq<Byte>)
    requires Grown(was, now) && n <= |list| && forall k :: 0 <= k < n ==> Readable(sha, was, list[k])
    requires Rebuilt(sha, was, list, n, bytes)
    ensures (forall k :: 0 <= k < n ==> Readable(sha, now, list[k])) && Rebuilt(sha, now, list, n, bytes)
  {
    hide ZeroName;
    forall k | 0 <= k < n ensures Readable(sha, now, list[k]) { assert Readable(sha, was, list[k]); }
  }

  class SharedStore {
    const sha: Hash
    const me: R.Pid                                  // the uploader that works for the client
    const others: nat -> seq<(R.Pid, R.Step)>        // what the others do before each call
    ghost const universe: iset<seq<Byte>>
    var sys: R.Sys
    var calls: nat

    ghost predicate Valid()
      reads this
    {
      && R.Inv(sha, sys) && RawsIn(sys, universe) && CollisionFree(sha, universe)
      && forall k :: StepsIn(others(k), me, universe)
    }

    ghost predicate Ready()
      reads this
    {
      Valid() && R.UploaderOf(sys, me) == R.Idle
    }

    ghost function Seen(): Blocks
      requires Valid()
      reads this
    {
      R.Visible(sha, sys)
    }

    /** A store that uploaders have been at, as far as `steps`. */
    constructor (sha: Hash, me: R.Pid, steps: seq<(R.Pid, R.Step)>, others: nat -> seq<(R.Pid, R.Step)>, ghost universe: iset<seq<Byte>>)
      requires R.IsRun(sha, R.Start, steps) && StepsIn(steps, me, universe) && CollisionFree(sha, universe)
      requires forall k :: StepsIn(others(k), me, universe)
      ensures Ready() && this.sha == sha && this.me == me && this.others == others && this.universe == universe
      ensures sys == R.After(sha, R.Start, steps)
    {
      this.sha, this.me, this.others, this.universe := sha, me, others, universe;
      sys := R.After(sha, R.Start, steps);
      calls := 0;
      new;
      R.StartOk(sha);
      RunGrows(sha, R.Start, steps, me, universe);
    }

    /** The other uploaders act. */
    method Wait()
      requires Valid()
      modifies this
      ensures Valid() && Grown(old(Seen()), Seen()) && R.UploaderOf(sys, me) == old(R.UploaderOf(sys, me))
    {
      hide R.IsRun, R.After, R.Inv, RawsIn, CollisionFree, StepsIn, R.Visible;
      calls := calls + 1;
      var steps := others(calls);
      GrownSelf(R.Visible(sha, sys));
      if R.IsRun(sha, sys, steps) {
        RunGrows(sha, sys, steps, me, universe);
        sys := R.After(sha, sys, steps);
      }
    }

    /** The client's uploader makes one system call. */
    method Act(step: R.Step)
      requires Valid() && R.Enabled(sha, sys, me, step) && StepIn(step, universe)
      modifies this
      ensures Valid() && Grown(old(Seen()), Seen()) && sys == R.Apply(sha, old(sys), me, step)
    {
      hide R.Apply, R.Enabled, R.Inv, RawsIn, CollisionFree, StepsIn, R.Visible;
      StepGrows(sha, sys, me, step, universe);
      sys := R.Apply(sha, sys, me, step);
    }

    /** Looks at a path; what it held may be read from then on. */
    method Read(name: string) returns (raw: Option<seq<Byte>>)
      requires Ready()
      modifies this
      ensures Ready() && Grown(old(Seen()), Seen())
      ensures raw == if name in Seen() then Some(Seen()[name]) else None
    {
      Wait();
      assert R.PathOk(sha, sys, name);
      raw := if name in sys.paths then Some(sys.contents[sys.paths[name]]) else None;
    }

    /** The others act, then the client's uploader makes its next call; `was` is the store
        just before it. */
    method Next(step: R.Step, ghost start: Blocks) returns (ghost was: R.Sys)
      requires Valid() && R.Enabled(sha, sys, me, step) && StepIn(step, universe) && Grown(start, Seen())
      modifies this
      ensures Valid() && Grown(start, Seen())
      ensures R.UploaderOf(was, me) == old(R.UploaderOf(sys, me))
      ensures R.Enabled(sha, was, me, step) && sys == R.Apply(sha, was, me, step)
    {
      hide R.Apply, R.Inv, RawsIn, CollisionFree, StepsIn, R.Visible, Grown, NameOf, ZeroName;
      ghost var b0 := Seen();
      Wait();
      ghost var b1 := Seen();
      was := sys;
      GrownThen(start, b0, b1);
      Act(step);
      GrownThen(start, b1, Seen());
    }

    /** Stores a block as the others do (src/server.rs:2348-2383); `links` is whether
        hard links work. Afterwards the block is there, whoever put it there. */
    method StoreBlock(name: string, raw: seq<Byte>, links: bool) returns (ok: bool)
      requires Ready() && raw in universe
      modifies this
      ensures Ready() && Grown(old(Seen()), Seen())
      ensures ok <==> |raw| <= CAS_BLOCK_SIZE && NameOf(sha, raw) == name
      ensures ok ==> name == ZeroName(sha) || name in Seen()
    {
      hide NameOf, ZeroName, Grown, R.Inv, RawsIn, CollisionFree, StepsIn;
      ghost var start := Seen();
      GrownSelf(start);
      if !ValidSha256Hex(name) || |raw| > CAS_BLOCK_SIZE { return false; }
      if NameOf(sha, raw) != name { return false; }
      if name == ZeroName(sha) { return true; }
      var _ := Next(R.Begin(name, raw), start);
      if name in sys.paths { return true; }
      LinkIn(name, raw, links, start);
      return true;
    }

    /** Writes a temporary file and links it into place, or moves it there. */
    method LinkIn(name: string, raw: seq<Byte>, links: bool, ghost start: Blocks)
      requires Valid() && R.UploaderOf(sys, me) == R.Checked(name, raw) && Grown(start, Seen())
      modifies this
      ensures Ready() && Grown(start, Seen()) && name in Seen()
    {
      hide NameOf, ZeroName, Grown, R.Inv, RawsIn, CollisionFree, StepsIn;
      var _ := Next(R.MakeTemp, start);
      var _ := Next(R.Write(|raw|), start);
      if links {
        var _ := Next(R.Link, start);
      } else {
        var _ := Next(R.LinkFails, start);
        var _ := Next(R.Rename, start);
      }
    }

    /** What the client is asked for: the names not there when each was looked up
        (src/server.rs:1247-1266). */
    method Missing(files: seq<ManifestFile>) returns (missing: seq<string>)
      requires Ready()
      modifies this
      ensures Ready() && Grown(old(Seen()), Seen())
      ensures forall name :: name in missing ==> name in Names(AllBlocks(files)) && name != ZeroName(sha) && name !in old(Seen())
      ensures forall b :: b in AllBlocks(files) ==> Held(sha, Seen(), b) || b.sha256 in missing
    {
      hide NameOf, ZeroName, Grown, R.Inv, RawsIn, CollisionFree, StepsIn, AllBlocks, R.Visible;
      ghost var start := Seen();
      GrownSelf(start);
      var seen: set<string> := {};
      missing := [];
      assert AllBlocks(files[..0]) == [] by { NoBlocks(); }
      for i := 0 to |files|
        invariant Ready() && Grown(start, Seen())
        invariant Asked(sha, start, Seen(), AllBlocks(files[..i]), seen, missing)
      {
        var list := files[i].blocks;
        ghost var before := AllBlocks(files[..i]);
        OneFileMore(files, i);
        assert before + list[..0] == before;
        for j := 0 to |list|
          invariant Ready() && Grown(start, Seen())
          invariant Asked(sha, start, Seen(), before + list[..j], seen, missing)
        {
          var b := list[j];
          ghost var was := Seen();
          assert before + list[..j + 1] == before + list[..j] + [b];
          var there := None;
          if b.sha256 !in seen && b.sha256 != ZeroName(sha) {
            there := Read(b.sha256);
            GrownThen(start, was, Seen());
          } else {
            GrownSelf(was);
          }
          AskOne(sha, start, was, Seen(), before + list[..j], b, seen, missing);
          if b.sha256 !in seen && b.sha256 != ZeroName(sha) && there == None { missing := missing + [b.sha256]; }
          seen := seen + {b.sha256};
        }
        assert before + list[..|list|] == before + list;
      }
      assert files[..|files|] == files;
    }

    /** Reads frames until the stream ends or something is wrong with it, storing each as
        it comes (src/server.rs:2385-2407). */
    method StoreStream(input: seq<Byte>, links: bool) returns (count: Option<nat>)
      requires Ready() && CarriedIn(input, universe)
      modifies this
      ensures Ready() && Grown(old(Seen()), Seen())
      ensures count == var p := ParseAll(input);
                       if p.ok && Accepted(sha, p.frames) == |p.frames| then Some(|p.frames|) else None
      ensures forall name :: name in AcceptedNames(sha, ParseAll(input).frames) ==> name == ZeroName(sha) || name in Seen()
    {
      hide NameOf, ZeroName, Grown, R.Inv, RawsIn, CollisionFree, StepsIn, FirstLength, R.Visible, ParseAll, Accepted,
           AcceptedNames, CarriedIn;
      var rest, n := input, 0;
      ghost var start, names := Seen(), {};
      GrownSelf(start);
      while |rest| >= 32
        invariant Ready() && Grown(start, Seen()) && CarriedIn(rest, universe)
        invariant ParseAll(rest).ok == ParseAll(input).ok
        invariant n + |ParseAll(rest).frames| == |ParseAll(input).frames|
        invariant n + Accepted(sha, ParseAll(rest).frames) == Accepted(sha, ParseAll(input).frames)
        invariant AcceptedNames(sha, ParseAll(input).frames) == names + AcceptedNames(sha, ParseAll(rest).frames)
        invariant forall name :: name in names ==> name == ZeroName(sha) || name in Seen()
        decreases |rest|
      {
        ghost var was := Seen();
        var len := FirstLength(rest);
        FrameStep(sha, rest, universe);
        if len == None { return None; }
        var digest, raw := rest[..32], rest[36..36 + len.value];
        rest := rest[36 + len.value..];
        var ok := StoreBlock(HexOf(digest), raw, links);
        GrownThen(start, was, Seen());
        StillSeen(sha, was, Seen(), names);
        if !ok { return None; }
        n := n + 1;
        names := names + {HexOf(digest)};
      }
      StreamEnds(sha, rest);
      return Some(n);
    }

    method VerifyBlocksExist(files: seq<ManifestFile>) returns (ok: bool)
      requires Ready()
      modifies this
      ensures Ready() && Grown(old(Seen()), Seen())
      ensures (forall i :: 0 <= i < |files| ==> AllHeld(sha, old(Seen()), files[i].blocks)) ==> ok
      ensures ok ==> forall i :: 0 <= i < |files| ==> AllHeld(sha, Seen(), files[i].blocks)
    {
      hide NameOf, ZeroName, R.Inv, RawsIn, CollisionFree, StepsIn, R.Visible, Grown;
      ghost var start := Seen();
      GrownSelf(start);
      for i := 0 to |files|
        invariant Ready() && Grown(start, Seen())
        invariant forall k :: 0 <= k < i ==> AllHeld(sha, Seen(), files[k].blocks)
      {
        var list := files[i].blocks;
        for j := 0 to |list|
          invariant Ready() && Grown(start, Seen())
          invariant forall k :: 0 <= k < i ==> AllHeld(sha, Seen(), files[k].blocks)
          invariant forall k :: 0 <= k < j ==> Held(sha, Seen(), list[k])
        {
          if list[j].sha256 == ZeroName(sha) { continue; }
          ghost var was := Seen();
          var there := Read(list[j].sha256);
          GrownThen(start, was, Seen());
          HeldStays(sha, was, Seen());
          HeldStays(sha, start, Seen());
          if there == None {
            assert !Held(sha, Seen(), list[j]);
            return false;
          }
        }
      }
      return true;
    }

    method ReconstructFile(f: ManifestFile) returns (out: Option<OutFile>)
      requires Ready() && ValidBlocks(f.blocks, f.len)
      modifies this
      ensures Ready() && Grown(old(Seen()), Seen())
      ensures AllReadable(sha, old(Seen()), f.blocks) ==> out.Some?
      ensures out.Some? ==> IsRebuilt(sha, Seen(), f, out.value)
    {
      hide Rebuilt, Sound, WrittenOver, NameOf, ZeroName, R.Inv, RawsIn, CollisionFree, StepsIn, R.Visible, Grown;
      ghost var start := Seen();
      GrownSelf(start);
      var output := new Image(f.len);
      NothingRebuilt(sha, start, f);
      for i := 0 to |f.blocks|
        invariant Ready() && Grown(start, Seen())
        invariant fresh(output) && output.Valid() && |output.bytes| == f.len
        invariant forall k :: 0 <= k < i ==> Readable(sha, Seen(), f.blocks[k])
        invariant Rebuilt(sha, Seen(), f.blocks, i, output.bytes)
      {
        var b := f.blocks[i];
        ghost var was, blocks := output.bytes, Seen();
        GrownSelf(blocks);
        if b.sha256 != ZeroName(sha) {
          var raw := Read(b.sha256);
          GrownThen(start, blocks, Seen());
          ReadableStays(sha, start, Seen(), b);
          RebuiltStays(sha, blocks, Seen(), f.blocks, i, output.bytes);
          if raw == None || |raw.value| < b.len { return None; }
          assert ValidBlock(b, f.len);
          output.WriteAt(b.offset, raw.value[..b.len]);
        }
        RebuildBlock(sha, Seen(), f.blocks, i, was, output.bytes);
      }
      return Some(OutFile(output.bytes, f.mode % 4096));
    }

    method ReconstructManifest(m: PushManifest, privileged: bool) returns (tree: Option<Tree>)
      requires Ready() && ValidManifest(m)
      modifies this
      ensures Ready() && Grown(old(Seen()), Seen())
      ensures FilesReadable(sha, old(Seen()), m.files, |m.files|) && Layable(m.files, |m.files|, privileged) ==> tree.Some?
      ensures tree.Some? ==> TreeOf(sha, Seen(), m.files, |m.files|, tree.value)
    {
      hide TreeOf, IsRebuilt, AllReadable, ValidBlocks, PlaceOf, ValidManifest, SafePath, Layable, MayCreate, R.Inv, RawsIn,
           CollisionFree, StepsIn, R.Visible, Grown;
      ghost var start := Seen();
      GrownSelf(start);
      var out: Tree := map[];
      EmptyTree(sha, start, m.files, privileged);
      for i := 0 to |m.files|
        invariant Ready() && Grown(start, Seen()) && Layable(m.files, i, privileged)
        invariant TreeOf(sha, Seen(), m.files, i, out)
      {
        ghost var was := Seen();
        BlocksOfFile(m, i);
        LayOne(sha, was, m.files, i, out, privileged);
        if !MayCreate(out, m.files[i], privileged) { return None; }
        AllReadableStays(sha, start, was, m.files[i].blocks);
        var file := ReconstructFile(m.files[i]);
        GrownThen(start, was, Seen());
        if file == None { return None; }
        TreeStays(sha, was, Seen(), m.files, i, out);
        PlaceFile(sha, Seen(), m.files, i, out, file.value);
        out := out[PlaceOf(m.files[i]) := file.value];
      }
      return Some(out);
    }
  }

  lemma GrownThen(a: Blocks, b: Blocks, c: Blocks)
    requires Grown(a, b) && Grown(b, c)
    ensures Grown(a, c)
  {
  }

  lemma NoBlocks()
    ensures AllBlocks([]) == []
  {
  }

  /** The names asked for so far: each was looked up at a time between `start` and `now`. */
  ghost predicate Asked(sha: Hash, start: Blocks, now: Blocks, done: seq<Block>, seen: set<string>, missing: seq<string>) {
    && seen == Names(done)
    && (forall name :: name in missing ==> name in seen && name != ZeroName(sha) && name !in start)
    && (forall b :: b in done ==> Held(sha, now, b) || b.sha256 in missing)
  }

  lemma AskOne(sha: Hash, start: Blocks, was: Blocks, now: Blocks, done: seq<Block>, b: Block, seen: set<string>, missing: seq<string>)
    requires Asked(sha, start, was, done, seen, missing) && Grown(start, now) && Grown(was, now)
    ensures var asks := b.sha256 !in seen && b.sha256 != ZeroName(sha) && b.sha256 !in now;
            Asked(sha, start, now, done + [b], seen + {b.sha256}, if asks then missing + [b.sha256] else missing)
  {
    hide ZeroName;
    OneName(done, b);
    if b.sha256 in seen {
      var c :| c in done && c.sha256 == b.sha256;
      assert Held(sha, was, c) || c.sha256 in missing;
    }
  }

  /** The names of the frames a stream gets to store. */
  ghost function AcceptedNames(sha: Hash, frames: seq<Frame>): set<string> {
    if frames == [] || !Matches(sha, frames[0]) then {} else {HexOf(frames[0].digest)} + AcceptedNames(sha, frames[1..])
  }

  lemma FrameStep(sha: Hash, input: seq<Byte>, universe: iset<seq<Byte>>)
    requires |input| >= 32 && CarriedIn(input, universe)
    ensures FirstLength(input).None? ==>
              ParseAll(input) == Parsed([], false) && Accepted(sha, []) == 0 && AcceptedNames(sha, []) == {}
    ensures FirstLength(input).Some? ==>
              var len := FirstLength(input).value;
              var f, rest := Frame(input[..32], input[36..36 + len]), ParseAll(input[36 + len..]);
              var all := ParseAll(input);
              && all.ok == rest.ok && |all.frames| == 1 + |rest.frames| && f.raw in universe
              && CarriedIn(input[36 + len..], universe)
              && Accepted(sha, all.frames) == (if Matches(sha, f) then 1 + Accepted(sha, rest.frames) else 0)
              && AcceptedNames(sha, all.frames) ==
                   (if Matches(sha, f) then {HexOf(f.digest)} + AcceptedNames(sha, rest.frames) else {})
  {
    hide NameOf, FirstLength;
    if FirstLength(input).Some? {
      var len := FirstLength(input).value;
      var f, rest := Frame(input[..32], input[36..36 + len]), ParseAll(input[36 + len..]);
      var frames := ParseAll(input).frames;
      assert frames[0] == f && frames[1..] == rest.frames;
      forall k | 0 <= k < |rest.frames| ensures rest.frames[k].raw in universe { assert frames[k + 1] == rest.frames[k]; }
    }
  }

  lemma StreamEnds(sha: Hash, input: seq<Byte>)
    requires |input| < 32
    ensures ParseAll(input) == Parsed([], true) && Accepted(sha, []) == 0 && AcceptedNames(sha, []) == {}
  {
  }

  lemma {:induction false} AllAccepted(sha: Hash, frames: seq<Frame>)
    requires Accepted(sha, frames) == |frames|
    ensures forall k :: 0 <= k < |frames| ==> HexOf(frames[k].digest) in AcceptedNames(sha, frames)
    decreases |frames|
  {
    if frames != [] {
      AllAccepted(sha, frames[1..]);
      forall k | 0 <= k < |frames| ensures HexOf(frames[k].digest) in AcceptedNames(sha, frames) {
        if k > 0 { assert frames[k] == frames[1..][k - 1]; }
      }
    }
  }

  lemma StillSeen(sha: Hash, was: Blocks, now: Blocks, names: set<string>)
    requires Grown(was, now) && forall name :: name in names ==> name == ZeroName(sha) || name in was
    ensures forall name :: name in names ==> name == ZeroName(sha) || name in now
  {
    hide ZeroName;
  }

  lemma HeldStays(sha: Hash, was: Blocks, now: Blocks)
    requires Grown(was, now)
    ensures forall b :: Held(sha, was, b) ==> Held(sha, now, b)
    ensures forall list :: AllHeld(sha, was, list) ==> AllHeld(sha, now, list)
  {
    hide ZeroName;
  }

  lemma ReadableStays(sha: Hash, was: Blocks, now: Blocks, b: Block)
    requires Grown(was, now)
    ensures Readable(sha, was, b) ==> Readable(sha, now, b)
  {
    hide ZeroName;
  }

  lemma AllReadableStays(sha: Hash, was: Blocks, now: Blocks, list: seq<Block>)
    requires Grown(was, now)
    ensures AllReadable(sha, was, list) ==> AllReadable(sha, now, list)
  {
    hide Readable;
    if AllReadable(sha, was, list) {
      forall k | 0 <= k < |list| ensures Readable(sha, now, list[k]) { ReadableStays(sha, was, now, list[k]); }
    }
  }

  lemma TreeStays(sha: Hash, was: Blocks, now: Blocks, files: seq<ManifestFile>, n: nat, tree: Tree)
    requires Grown(was, now) && n <= |files| && TreeOf(sha, was, files, n, tree)
    ensures TreeOf(sha, now, files, n, tree)
  {
    hide Rebuilt, Readable, PlaceOf, Taken;
    forall i | 0 <= i < n && Last(files, i, n) ensures InTree(sha, now, files[i], tree) {
      assert InTree(sha, was, files[i], tree);
      RebuiltStays(sha, was, now, files[i].blocks, |files[i].blocks|, tree[PlaceOf(files[i])].bytes);
    }
  }

  /** Push is the identity on files, whatever the server already holds and however other
      uploaders' system calls fall between those made for the client. */
  method PushAmongOthers(server: SharedStore, files: seq<SourceFile>, instance: string, links: bool, privileged: bool)
    returns (tree: Option<Tree>)
    requires server.Ready() && Walked(files) && ValidInstanceName(instance)
    requires ZeroBlock() in server.universe && ChunksIn(files, server.universe)
    modifies server
    ensures server.Ready() && Grown(old(server.Seen()), server.Seen())
    ensures tree.Some? && IsCopy(files, tree.value)
  {
    hide Walked, ValidInstanceName, CollisionFree, StoredIn, ChunksIn, CarriedIn, GoodBlocks, ZeroName, ZeroBlock, ValidManifest,
         FilesCut, SourcesOk, AllNamed, AreSent, Fit, EncodeAll, ParseAll, Accepted, AcceptedNames, Names, AllBlocks, Grown, Held, AllHeld,
         TreeOf, FilesReadable, IsCopy, PlaceOf, Collected, Layable, R.Inv, RawsIn, StepsIn, R.Visible, NameOf;
    WalkedCollected(files);
    var m, sources := Open(server.sha, files, instance);
    OpenedIsValid(server.sha, files, m);
    ghost var b0 := server.Seen();
    var missing := server.Missing(m.files);
    ghost var b1 := server.Seen();
    NamesHaveSources(m, sources, AllBlocks(m.files), missing);
    GrownSelf(b1);
    if missing != [] {
      var stream, frames := Pack(server.sha, files, sources, missing);
      PackedArrives(server.sha, b1, files, missing, frames);
      SentIn(server.sha, files, missing, frames, server.universe);
      CarriesIn(stream.value, frames, server.universe);
      var count := server.StoreStream(stream.value, links);
      SentSeen(server.sha, files, missing, frames, server.Seen());
      if count == None { return None; }
    }
    ghost var b2 := server.Seen();
    GrownThen(b0, b1, b2);
    AllArrived(server.sha, b1, b2, m.files, missing);
    var valid := ValidateManifest(m);
    if !valid { return None; }
    var present := server.VerifyBlocksExist(m.files);
    if !present { return None; }
    ghost var b3 := server.Seen();
    GrownThen(b0, b2, b3);
    VisibleIsGood(server.sha, server.sys, server.universe);
    TreeIsSource(server.sha, b3, files, m, server.universe);
    tree := server.ReconstructManifest(m, privileged);
    ghost var b4 := server.Seen();
    GrownThen(b0, b3, b4);
    VisibleIsGood(server.sha, server.sys, server.universe);
    StillHeld(server.sha, b3, b4, m.files);
    TreeIsSource(server.sha, b4, files, m, server.universe);
  }

  lemma CarriesIn(stream: seq<Byte>, frames: seq<Frame>, universe: iset<seq<Byte>>)
    requires ParseAll(stream) == Parsed(frames, true) && forall k :: 0 <= k < |frames| ==> frames[k].raw in universe
    ensures CarriedIn(stream, universe)
  {
    hide ParseAll;
  }

  lemma SentSeen(sha: Hash, files: seq<SourceFile>, names: seq<string>, frames: seq<Frame>, now: Blocks)
    requires AreSent(sha, files, names, frames) && ZeroName(sha) !in names && Accepted(sha, frames) == |frames|
    requires forall name :: name in AcceptedNames(sha, frames) ==> name == ZeroName(sha) || name in now
    ensures forall name :: name in names ==> name in now
  {
    hide NameOf, ZeroName, IsChunk, Accepted, AcceptedNames;
    AllAccepted(sha, frames);
    forall k | 0 <= k < |names| ensures names[k] in now { assert IsSent(sha, files, names[k], frames[k]) && names[k] in names; }
  }

  lemma AllArrived(sha: Hash, was: Blocks, now: Blocks, files: seq<ManifestFile>, missing: seq<string>)
    requires Grown(was, now) && forall name :: name in missing ==> name in now
    requires forall b :: b in AllBlocks(files) ==> Held(sha, was, b) || b.sha256 in missing
    ensures forall i :: 0 <= i < |files| ==> AllHeld(sha, now, files[i].blocks)
  {
    hide ZeroName, AllBlocks;
    AllFilesHeld(sha, now, files);
  }

  lemma StillHeld(sha: Hash, was: Blocks, now: Blocks, files: seq<ManifestFile>)
    requires Grown(was, now) && forall i :: 0 <= i < |files| ==> AllHeld(sha, was, files[i].blocks)
    ensures forall i :: 0 <= i < |files| ==> AllHeld(sha, now, files[i].blocks)
  {
    hide AllHeld;
    HeldStays(sha, was, now);
  }
}
