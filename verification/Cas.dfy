/**
  The server's content-addressed store and its part in a push: the answer to an
  upload, storing blocks one by one or from a stream, and rebuilding files
  (src/server.rs:1217-1276, 1402-1459, 2348-2407).

  The digest is a parameter. Nothing here assumes that it has no collisions;
  what needs that says so, about the blocks involved.
 */
module Cas {
  import opened Layout
  import opened Sparse
  import opened Hex
  import opened Frames
  import opened Manifests

  type Hash = seq<Byte> -> Digest

  /** The name a block is stored under. */
  function NameOf(sha: Hash, raw: seq<Byte>): (name: string)
    ensures ValidSha256Hex(name)
  {
    HexOf(sha(raw))
  }

  function ZeroBlock(): seq<Byte> { Repeat(CAS_BLOCK_SIZE, 0) }

  /** Blocks under this name are never stored: they are holes. */
  function ZeroName(sha: Hash): string { NameOf(sha, ZeroBlock()) }

  type Blocks = map<string, seq<Byte>>

  ghost predicate GoodBlocks(sha: Hash, blocks: Blocks) {
    forall name :: name in blocks ==>
      |blocks[name]| <= CAS_BLOCK_SIZE && NameOf(sha, blocks[name]) == name && name != ZeroName(sha)
  }

  ghost predicate Grown(was: Blocks, now: Blocks) {
    forall name :: name in was ==> name in now && now[name] == was[name]
  }

  // ------------------------------------------------------------ streams

  predicate Matches(sha: Hash, f: Frame) { NameOf(sha, f.raw) == HexOf(f.digest) }

  function Kept(sha: Hash, blocks: Blocks, f: Frame): Blocks {
    var name := HexOf(f.digest);
    if name == ZeroName(sha) || name in blocks then blocks else blocks[name := f.raw]
  }

  /** Frames are stored in order up to the first that is not what it claims. */
  ghost function Accepted(sha: Hash, frames: seq<Frame>): (n: nat)
    ensures n <= |frames|
  {
    if frames == [] || !Matches(sha, frames[0]) then 0 else 1 + Accepted(sha, frames[1..])
  }

  ghost function KeptAll(sha: Hash, blocks: Blocks, frames: seq<Frame>): Blocks
    decreases |frames|
  {
    if frames == [] || !Matches(sha, frames[0]) then blocks
    else KeptAll(sha, Kept(sha, blocks, frames[0]), frames[1..])
  }

  /** Every accepted frame ends up under its name, holding the old block if there was one. */
  lemma {:induction false} AcceptedAreKept(sha: Hash, blocks: Blocks, frames: seq<Frame>)
    ensures Grown(blocks, KeptAll(sha, blocks, frames))
    ensures forall k :: 0 <= k < Accepted(sha, frames) ==>
              NameOf(sha, frames[k].raw) == ZeroName(sha) || NameOf(sha, frames[k].raw) in KeptAll(sha, blocks, frames)
    decreases |frames|
  {
    hide NameOf;
    if frames != [] && Matches(sha, frames[0]) {
      AcceptedAreKept(sha, Kept(sha, blocks, frames[0]), frames[1..]);
      forall k | 0 <= k < Accepted(sha, frames)
        ensures NameOf(sha, frames[k].raw) == ZeroName(sha) || NameOf(sha, frames[k].raw) in KeptAll(sha, blocks, frames)
      {
        if k > 0 { assert frames[k] == frames[1..][k - 1]; }
      }
    }
  }

  /** Nothing is stored that was not there before or sent. */
  lemma {:induction false} KeptAreSent(sha: Hash, blocks: Blocks, frames: seq<Frame>, name: string)
    requires name in KeptAll(sha, blocks, frames) && name !in blocks
    ensures exists k :: 0 <= k < |frames| && KeptAll(sha, blocks, frames)[name] == frames[k].raw
    decreases |frames|
  {
    hide NameOf;
    var next := Kept(sha, blocks, frames[0]);
    if name in next {
      AcceptedAreKept(sha, next, frames[1..]);
    } else {
      KeptAreSent(sha, next, frames[1..], name);
      var k :| 0 <= k < |frames[1..]| && KeptAll(sha, next, frames[1..])[name] == frames[1..][k].raw;
      assert frames[k + 1] == frames[1..][k];
    }
  }

  // ------------------------------------------------------------ accounting

  const U64_MAX: U64 := 0xFFFF_FFFF_FFFF_FFFF

  function Saturated(n: nat): U64 { if n <= U64_MAX then n else U64_MAX }

  function SaturatingAdd(x: U64, y: U64): U64 { Saturated(x + y) }

  ghost function Names(blocks: seq<Block>): set<string> { set b | b in blocks :: b.sha256 }

  /** The length the first block of that name has. */
  ghost function FirstLen(blocks: seq<Block>, name: string): nat {
    if blocks == [] then 0 else if blocks[0].sha256 == name then blocks[0].len else FirstLen(blocks[1..], name)
  }

  ghost function FirstLens(blocks: seq<Block>, names: seq<string>): nat {
    if names == [] then 0
    else FirstLens(blocks, names[..|names| - 1]) + FirstLen(blocks, names[|names| - 1])
  }

  ghost predicate NoDuplicates(names: seq<string>) {
    forall j, k :: 0 <= j < k < |names| ==> names[j] != names[k]
  }

  datatype Totals = Totals(seen: set<string>, known: nat, missing: seq<string>, bytes: U64)

  /** The running totals after some of a manifest's blocks, `have` being the names
      that need not be sent. */
  ghost predicate Accounted(done: seq<Block>, have: set<string>, t: Totals) {
    && t.seen == Names(done)
    && NoDuplicates(t.missing)
    && (forall name :: name in t.missing <==> name in t.seen && name !in have)
    && t.known == |t.seen * have|
    && t.known + |t.missing| == |t.seen|
    && t.bytes == Saturated(FirstLens(done, t.missing))
  }

  lemma {:induction false} FirstLenStays(done: seq<Block>, b: Block, name: string)
    ensures FirstLen(done + [b], name) ==
            if name in Names(done) then FirstLen(done, name) else if b.sha256 == name then b.len else 0
    decreases |done|
  {
    if done == [] {
      assert done + [b] == [b];
    } else {
      FirstLenStays(done[1..], b, name);
      assert (done + [b])[1..] == done[1..] + [b];
      assert done == [done[0]] + done[1..];
      assert name in Names(done) <==> done[0].sha256 == name || name in Names(done[1..]);
    }
  }

  lemma {:induction false} FirstLensStay(done: seq<Block>, b: Block, names: seq<string>)
    requires forall name :: name in names ==> name in Names(done)
    ensures FirstLens(done + [b], names) == FirstLens(done, names)
    decreases |names|
  {
    if names != [] {
      FirstLensStay(done, b, names[..|names| - 1]);
      FirstLenStays(done, b, names[|names| - 1]);
    }
  }

  lemma OneName(done: seq<Block>, b: Block)
    ensures Names(done + [b]) == Names(done) + {b.sha256}
  {
  }

  lemma AccountSeen(done: seq<Block>, b: Block, have: set<string>, t: Totals)
    requires Accounted(done, have, t) && b.sha256 in t.seen
    ensures Accounted(done + [b], have, t)
  {
    hide FirstLens, Names;
    FirstLensStay(done, b, t.missing);
    OneName(done, b);
    assert t.seen + {b.sha256} == t.seen;
  }

  lemma AccountKnown(done: seq<Block>, b: Block, have: set<string>, t: Totals)
    requires Accounted(done, have, t) && b.sha256 !in t.seen && b.sha256 in have
    ensures Accounted(done + [b], have, Totals(t.seen + {b.sha256}, t.known + 1, t.missing, t.bytes))
  {
    hide FirstLens, Names;
    FirstLensStay(done, b, t.missing);
    OneName(done, b);
    assert (t.seen + {b.sha256}) * have == t.seen * have + {b.sha256};
  }

  lemma MissingLens(done: seq<Block>, b: Block, missing: seq<string>)
    requires b.sha256 !in Names(done) && forall name :: name in missing ==> name in Names(done)
    ensures FirstLens(done + [b], missing + [b.sha256]) == FirstLens(done, missing) + b.len
  {
    FirstLensStay(done, b, missing);
    FirstLenStays(done, b, b.sha256);
    assert (missing + [b.sha256])[..|missing|] == missing;
  }

  lemma AccountMissing(done: seq<Block>, b: Block, have: set<string>, t: Totals)
    requires Accounted(done, have, t) && b.sha256 !in t.seen && b.sha256 !in have
    ensures Accounted(done + [b], have,
                      Totals(t.seen + {b.sha256}, t.known, t.missing + [b.sha256], SaturatingAdd(t.bytes, b.len)))
  {
    hide FirstLens, Names;
    MissingLens(done, b, t.missing);
    OneName(done, b);
    assert (t.seen + {b.sha256}) * have == t.seen * have;
  }

  ghost function AllBlocks(files: seq<ManifestFile>): seq<Block> {
    if files == [] then [] else AllBlocks(files[..|files| - 1]) + files[|files| - 1].blocks
  }

  ghost function TotalLen(files: seq<ManifestFile>): nat {
    if files == [] then 0 else TotalLen(files[..|files| - 1]) + files[|files| - 1].len
  }

  lemma OneFileMore(files: seq<ManifestFile>, i: nat)
    requires i < |files|
    ensures AllBlocks(files[..i + 1]) == AllBlocks(files[..i]) + files[i].blocks
    ensures TotalLen(files[..i + 1]) == TotalLen(files[..i]) + files[i].len
  {
    assert files[..i + 1][..i] == files[..i];
  }

  lemma {:induction false} BlockOfFile(files: seq<ManifestFile>, i: nat, b: Block)
    requires i < |files| && b in files[i].blocks
    ensures b in AllBlocks(files)
    decreases |files|
  {
    if i < |files| - 1 { BlockOfFile(files[..|files| - 1], i, b); }
  }

  /** `missing` lists each name that is needed and not there, once. */
  ghost predicate Answers(list: seq<Block>, have: set<string>, r: StartResponse) {
    && NoDuplicates(r.missing)
    && (forall name :: name in r.missing <==> name in Names(list) && name !in have)
    && r.known == |Names(list) * have|
    && r.known + |r.missing| == |Names(list)|
    && r.missingBytes == Saturated(FirstLens(list, r.missing))
  }

  datatype StartResponse = StartResponse(known: nat, logicalBytes: U64, missingBytes: U64, missing: seq<string>)

  // ------------------------------------------------------------ rebuilding

  ghost predicate Held(sha: Hash, blocks: Blocks, b: Block) {
    b.sha256 == ZeroName(sha) || b.sha256 in blocks
  }

  /** What rebuilding writes for a block: nothing for a hole, else the stored bytes. */
  ghost predicate Readable(sha: Hash, blocks: Blocks, b: Block) {
    b.sha256 == ZeroName(sha) || (b.sha256 in blocks && b.len <= |blocks[b.sha256]|)
  }

  ghost function ByteOf(sha: Hash, blocks: Blocks, b: Block, i: nat): Byte
    requires Readable(sha, blocks, b) && i < b.len
  {
    if b.sha256 == ZeroName(sha) then 0 else blocks[b.sha256][i]
  }

  ghost predicate InBlock(b: Block, i: int) { b.offset <= i < b.offset + b.len }

  /** Every block of a manifest can be read in full. */
  ghost predicate AllReadable(sha: Hash, blocks: Blocks, list: seq<Block>) {
    forall k :: 0 <= k < |list| ==> Readable(sha, blocks, list[k])
  }

  /** A file rebuilt from its first `n` blocks: each where it says, zero everywhere else. */
  ghost predicate Rebuilt(sha: Hash, blocks: Blocks, list: seq<Block>, n: nat, bytes: seq<Byte>)
    requires n <= |list| && forall k :: 0 <= k < n ==> Readable(sha, blocks, list[k])
  {
    && (forall k, i :: 0 <= k < n && 0 <= i < |bytes| && InBlock(list[k], i) ==>
          bytes[i] == ByteOf(sha, blocks, list[k], i - list[k].offset))
    && (forall i :: 0 <= i < |bytes| && OutsideBlocks(list, n, i) ==> bytes[i] == 0)
  }

  ghost predicate OutsideBlocks(list: seq<Block>, n: nat, i: int)
    requires n <= |list|
  {
    forall k :: 0 <= k < n ==> !InBlock(list[k], i)
  }

  lemma NothingRebuilt(sha: Hash, blocks: Blocks, f: ManifestFile)
    ensures Rebuilt(sha, blocks, f.blocks, 0, Repeat<Byte>(f.len, 0))
  {
  }

  lemma RebuildBlock(sha: Hash, blocks: Blocks, list: seq<Block>, n: nat, was: seq<Byte>, now: seq<Byte>)
    requires n < |list| && ValidBlocks(list, |was|)
    requires (forall k :: 0 <= k < n ==> Readable(sha, blocks, list[k])) && Readable(sha, blocks, list[n])
    requires Rebuilt(sha, blocks, list, n, was)
    requires if list[n].sha256 == ZeroName(sha) then now == was
             else WrittenOver(was, now, list[n].offset, blocks[list[n].sha256][..list[n].len])
    ensures Rebuilt(sha, blocks, list, n + 1, now)
  {
    hide NameOf, ZeroName, ValidSha256Hex;
    var b := list[n];
    forall i | 0 <= i < |was| && InBlock(b, i) ensures was[i] == 0 {
      assert OutsideBlocks(list, n, i);
    }
    forall i | 0 <= i < |now| && OutsideBlocks(list, n + 1, i) ensures now[i] == 0 {
      assert !InBlock(list[n], i);
      assert OutsideBlocks(list, n, i);
    }
  }

  datatype OutFile = OutFile(bytes: seq<Byte>, mode: nat)

  ghost predicate IsRebuilt(sha: Hash, blocks: Blocks, f: ManifestFile, out: OutFile) {
    && AllReadable(sha, blocks, f.blocks)
    && |out.bytes| == f.len && out.mode == f.mode % 4096
    && Rebuilt(sha, blocks, f.blocks, |f.blocks|, out.bytes)
  }

  function PlaceOf(f: ManifestFile): seq<string> { Walk([], Split(f.path)) }

  /** A file can be created under the path: it ends in a name, and has no NUL. */
  predicate Nameable(path: string) {
    var parts := Split(path);
    parts[|parts| - 1] != "" && parts[|parts| - 1] != "." && '\0' !in path
  }

  /** `last` is what follows the last slash, or the whole path where there is none. */
  ghost predicate EndsIn(path: string, last: string, whole: bool) {
    && '/' !in last && |last| <= |path| && path[|path| - |last|..] == last
    && if whole then last == path else |last| < |path| && path[|path| - |last| - 1] == '/'
  }

  lemma EndsInMore(path: string, last: string, whole: bool)
    requires path != "" && EndsIn(path[1..], last, whole)
    ensures !whole || path[0] == '/' ==> EndsIn(path, last, false)
    ensures whole && path[0] != '/' ==> EndsIn(path, path, true)
  {
    assert path == [path[0]] + path[1..];
    assert path[|path| - |last|..] == path[1..][|path| - 1 - |last|..];
  }

  lemma {:induction false} LastPart(path: string)
    ensures EndsIn(path, Split(path)[|Split(path)| - 1], |Split(path)| == 1)
    decreases |path|
  {
    if path == "" {
      assert Split(path) == [""];
    } else {
      hide EndsIn;
      var rest := Split(path[1..]);
      LastPart(path[1..]);
      EndsInMore(path, rest[|rest| - 1], |rest| == 1);
      if path[0] != '/' && |rest| == 1 {
        JoinOfSplit(path[1..]);
        assert rest == [path[1..]];
        assert path == [path[0]] + path[1..];
        assert Split(path) == [path];
      }
    }
  }

  /** Exactly the paths that do not end in a slash or a dot component. */
  lemma NameableMeans(path: string)
    ensures Nameable(path) <==>
              && path != "" && path != "." && '\0' !in path && path[|path| - 1] != '/'
              && !(|path| >= 2 && path[|path| - 2] == '/' && path[|path| - 1] == '.')
  {
    hide Split, EndsIn;
    LastPart(path);
    var parts := Split(path);
    EndsInNothing(path, parts[|parts| - 1], |parts| == 1);
    EndsInDot(path, parts[|parts| - 1], |parts| == 1);
  }

  lemma EndsInNothing(path: string, last: string, whole: bool)
    requires EndsIn(path, last, whole)
    ensures last == "" <==> path == "" || path[|path| - 1] == '/'
  {
    if last != "" { assert path[|path| - 1] == last[|last| - 1] && last[|last| - 1] in last; }
  }

  lemma EndsInDot(path: string, last: string, whole: bool)
    requires EndsIn(path, last, whole)
    ensures last == "." <==>
              path == "." || (|path| >= 2 && path[|path| - 2] == '/' && path[|path| - 1] == '.')
  {
    if last == "" {
      assert path == "" || path[|path| - 1] == '/';
    } else if |last| == 1 {
      assert path[|path| - 1] == last[0];
    } else {
      assert path[|path| - 2] == last[|last| - 2] && last[|last| - 2] in last;
    }
  }

  /** The owner's write bit. */
  predicate OwnerWritable(mode: nat)
    ensures OwnerWritable(mode) <==> 128 <= mode % 256
  {
    mode / 0x80 % 2 == 1
  }

  /** Whether a file can be created or opened there beside those already rebuilt: none of
      them is in the way as a directory or under it, and one in the same place can be
      opened for writing, which it always can if the server is `privileged`. */
  predicate MayCreate(out: Tree, f: ManifestFile, privileged: bool) {
    && Nameable(f.path)
    && (forall place :: place in out ==> !(place < PlaceOf(f)) && !(PlaceOf(f) < place))
    && (PlaceOf(f) in out ==> privileged || OwnerWritable(out[PlaceOf(f)].mode))
  }

  /** The files of a manifest fit into one directory. */
  ghost predicate Layable(files: seq<ManifestFile>, n: nat, privileged: bool)
    requires n <= |files|
  {
    && (forall i :: 0 <= i < n ==> Nameable(files[i].path))
    && (forall i, j :: 0 <= i < j < n ==> Compatible(files[i], files[j], privileged))
  }

  /** Neither is a directory of the other, and the first does not stop the second from
      being written in the same place. */
  predicate Compatible(f: ManifestFile, g: ManifestFile, privileged: bool) {
    && !(PlaceOf(f) < PlaceOf(g)) && !(PlaceOf(g) < PlaceOf(f))
    && (PlaceOf(f) == PlaceOf(g) ==> privileged || OwnerWritable(f.mode % 4096))
  }

  // ------------------------------------------------------------ the store

  class CasStore {
    const sha: Hash
    var blocks: Blocks

    ghost predicate Valid()
      reads this
    {
      GoodBlocks(sha, blocks)
    }

    constructor (sha: Hash)
      ensures Valid() && blocks == map[] && this.sha == sha
    {
      this.sha, blocks := sha, map[];
    }

    /** A block is taken exactly when it is what it claims; a block already there,
        or the zero block, changes nothing. */
    method StoreBlock(sha256: string, raw: seq<Byte>) returns (ok: bool)
      requires Valid()
      modifies this
      ensures Valid()
      ensures ok <==> |raw| <= CAS_BLOCK_SIZE && NameOf(sha, raw) == sha256
      ensures blocks == if ok && sha256 != ZeroName(sha) && sha256 !in old(blocks)
                        then old(blocks)[sha256 := raw] else old(blocks)
    {
      hide NameOf, ZeroName;
      if !ValidSha256Hex(sha256) || |raw| > CAS_BLOCK_SIZE { return false; }
      if NameOf(sha, raw) != sha256 { return false; }
      if sha256 == ZeroName(sha) || sha256 in blocks { return true; }
      blocks := blocks[sha256 := raw];
      return true;
    }

    /** Reads frames until the stream ends or something is wrong with it, storing
        each as it comes; the count is given only if nothing was. */
    method StoreStream(input: seq<Byte>) returns (count: Option<nat>)
      requires Valid()
      modifies this
      ensures Valid()
      ensures blocks == KeptAll(sha, old(blocks), ParseAll(input).frames)
      ensures count == var p := ParseAll(input);
                       if p.ok && Accepted(sha, p.frames) == |p.frames| then Some(|p.frames|) else None
    {
      hide NameOf, ZeroName, GoodBlocks, FirstLength;
      var rest, n := input, 0;
      ghost var was := blocks;
      while |rest| >= 32
        invariant Valid()
        invariant KeptAll(sha, blocks, ParseAll(rest).frames) == KeptAll(sha, was, ParseAll(input).frames)
        invariant ParseAll(rest).ok == ParseAll(input).ok
        invariant n + |ParseAll(rest).frames| == |ParseAll(input).frames|
        invariant n + Accepted(sha, ParseAll(rest).frames) == Accepted(sha, ParseAll(input).frames)
        decreases |rest|
      {
        var digest := rest[..32];
        var len := FirstLength(rest);
        if len == None { return None; }
        var raw := rest[36..36 + len.value];
        var tail := rest[36 + len.value..];
        ghost var frames := ParseAll(rest).frames;
        assert frames[0] == Frame(digest, raw) && frames[1..] == ParseAll(tail).frames;
        var ok := StoreBlock(HexOf(digest), raw);
        if !ok { return None; }
        rest, n := tail, n + 1;
      }
      return Some(n);
    }

    /** One file's blocks added to the running totals. */
    method CountBlocks(list: seq<Block>, ghost before: seq<Block>, t: Totals) returns (r: Totals)
      requires Accounted(before, Have(), t)
      ensures Accounted(before + list, Have(), r)
    {
      hide NameOf, ZeroName, Accounted;
      r := t;
      assert before + list[..0] == before;
      for j := 0 to |list|
        invariant Accounted(before + list[..j], Have(), r)
      {
        var b := list[j];
        assert before + list[..j + 1] == before + list[..j] + [b];
        if b.sha256 in r.seen {
          AccountSeen(before + list[..j], b, Have(), r);
        } else {
          if b.sha256 == ZeroName(sha) || b.sha256 in blocks {
            AccountKnown(before + list[..j], b, Have(), r);
            r := r.(seen := r.seen + {b.sha256}, known := r.known + 1);
          } else {
            AccountMissing(before + list[..j], b, Have(), r);
            r := r.(seen := r.seen + {b.sha256}, missing := r.missing + [b.sha256], bytes := SaturatingAdd(r.bytes, b.len));
          }
        }
      }
      assert before + list[..|list|] == before + list;
    }

    /** The names that need not be sent. */
    ghost function Have(): set<string>
      reads this
    {
      blocks.Keys + {ZeroName(sha)}
    }

    /** The answer to an upload: what is missing, once each, and what it adds up to. */
    method StartUpload(m: PushManifest) returns (r: Option<StartResponse>)
      ensures r.Some? <==> m.version == 2 && ValidManifest(m)
      ensures r.Some? ==> Answers(AllBlocks(m.files), Have(), r.value) && r.value.logicalBytes == Saturated(TotalLen(m.files))
    {
      hide ValidManifest, Accounted, Have, Answers, AllBlocks, TotalLen;
      if m.version != 2 { return None; }
      var valid := ValidateManifest(m);
      if !valid { return None; }
      var t, logicalBytes: U64 := Totals({}, 0, [], 0), 0;
      StartAccount(Have(), m.files);
      for i := 0 to |m.files|
        invariant logicalBytes == Saturated(TotalLen(m.files[..i]))
        invariant Accounted(AllBlocks(m.files[..i]), Have(), t)
      {
        OneFileMore(m.files, i);
        logicalBytes := SaturatingAdd(logicalBytes, m.files[i].len);
        t := CountBlocks(m.files[i].blocks, AllBlocks(m.files[..i]), t);
      }
      assert m.files[..|m.files|] == m.files;
      EndAccount(AllBlocks(m.files), Have(), t);
      return Some(StartResponse(t.known, logicalBytes, t.bytes, t.missing));
    }

    method VerifyBlocksExist(m: PushManifest) returns (ok: bool)
      ensures ok <==> forall i :: 0 <= i < |m.files| ==> AllHeld(sha, blocks, m.files[i].blocks)
    {
      hide NameOf, ZeroName;
      for i := 0 to |m.files|
        invariant forall k :: 0 <= k < i ==> AllHeld(sha, blocks, m.files[k].blocks)
      {
        var list := m.files[i].blocks;
        for j := 0 to |list|
          invariant forall k :: 0 <= k < j ==> Held(sha, blocks, list[k])
        {
          if list[j].sha256 == ZeroName(sha) { continue; }
          if list[j].sha256 !in blocks { return false; }
        }
      }
      return true;
    }

    /** Fails exactly when some block is gone or shorter than the manifest says. */
    method ReconstructFile(f: ManifestFile) returns (out: Option<OutFile>)
      requires ValidBlocks(f.blocks, f.len)
      ensures out.Some? <==> AllReadable(sha, blocks, f.blocks)
      ensures out.Some? ==> IsRebuilt(sha, blocks, f, out.value)
    {
      hide Rebuilt, Sound, WrittenOver, NameOf, ZeroName;
      var output := new Image(f.len);
      NothingRebuilt(sha, blocks, f);
      for i := 0 to |f.blocks|
        invariant fresh(output) && output.Valid() && |output.bytes| == f.len
        invariant forall k :: 0 <= k < i ==> Readable(sha, blocks, f.blocks[k])
        invariant Rebuilt(sha, blocks, f.blocks, i, output.bytes)
      {
        var b := f.blocks[i];
        ghost var was := output.bytes;
        if b.sha256 != ZeroName(sha) {
          if b.sha256 !in blocks || |blocks[b.sha256]| < b.len { return None; }
          assert ValidBlock(b, f.len);
          output.WriteAt(b.offset, blocks[b.sha256][..b.len]);
        }
        RebuildBlock(sha, blocks, f.blocks, i, was, output.bytes);
      }
      return Some(OutFile(output.bytes, f.mode % 4096));
    }

    /** Fails exactly when some block cannot be read or the files do not fit into one
        directory. They are rebuilt in order, so the last one wins a place named twice. */
    method ReconstructManifest(m: PushManifest, privileged: bool) returns (tree: Option<Tree>)
      requires ValidManifest(m)
      ensures tree.Some? <==>
                FilesReadable(sha, blocks, m.files, |m.files|) && Layable(m.files, |m.files|, privileged)
      ensures tree.Some? ==> TreeOf(sha, blocks, m.files, |m.files|, tree.value)
    {
      hide TreeOf, IsRebuilt, AllReadable, ValidBlocks, PlaceOf, ValidManifest, SafePath, Layable, MayCreate;
      var out: Tree := map[];
      EmptyTree(sha, blocks, m.files, privileged);
      for i := 0 to |m.files|
        invariant FilesReadable(sha, blocks, m.files, i) && Layable(m.files, i, privileged)
        invariant TreeOf(sha, blocks, m.files, i, out)
      {
        BlocksOfFile(m, i);
        LayOne(sha, blocks, m.files, i, out, privileged);
        if !MayCreate(out, m.files[i], privileged) { return None; }
        var file := ReconstructFile(m.files[i]);
        if file == None { return None; }
        PlaceFile(sha, blocks, m.files, i, out, file.value);
        out := out[PlaceOf(m.files[i]) := file.value];
      }
      return Some(out);
    }
  }

  type Tree = map<seq<string>, OutFile>

  ghost predicate FilesReadable(sha: Hash, blocks: Blocks, files: seq<ManifestFile>, n: nat)
    requires n <= |files|
  {
    forall i :: 0 <= i < n ==> AllReadable(sha, blocks, files[i].blocks)
  }

  ghost predicate InTree(sha: Hash, blocks: Blocks, f: ManifestFile, tree: Tree) {
    PlaceOf(f) in tree && IsRebuilt(sha, blocks, f, tree[PlaceOf(f)])
  }

  /** Each place holds the last of the first `n` files that has it. */
  ghost predicate TreeOf(sha: Hash, blocks: Blocks, files: seq<ManifestFile>, n: nat, tree: Tree)
    requires n <= |files|
  {
    && (forall i :: 0 <= i < n ==> PlaceOf(files[i]) in tree)
    && (forall i :: 0 <= i < n && Last(files, i, n) ==> InTree(sha, blocks, files[i], tree))
    && (forall place :: place in tree ==> Taken(files, n, place))
  }

  ghost predicate Taken(files: seq<ManifestFile>, n: nat, place: seq<string>)
    requires n <= |files|
  {
    exists i :: 0 <= i < n && PlaceOf(files[i]) == place && Last(files, i, n)
  }

  ghost predicate Last(files: seq<ManifestFile>, i: nat, n: nat)
    requires i < n <= |files|
  {
    forall k :: i < k < n ==> PlaceOf(files[k]) != PlaceOf(files[i])
  }

  lemma EmptyTree(sha: Hash, blocks: Blocks, files: seq<ManifestFile>, privileged: bool)
    ensures TreeOf(sha, blocks, files, 0, map[]) && Layable(files, 0, privileged)
  {
  }

  lemma BlocksOfFile(m: PushManifest, i: nat)
    requires ValidManifest(m) && i < |m.files|
    ensures ValidBlocks(m.files[i].blocks, m.files[i].len)
  {
    assert ValidFile(m.files[i]);
  }

  /** The check against what is there so far decides whether one more file fits. */
  lemma LayOne(sha: Hash, blocks: Blocks, files: seq<ManifestFile>, n: nat, tree: Tree, privileged: bool)
    requires n < |files| && TreeOf(sha, blocks, files, n, tree) && Layable(files, n, privileged)
    ensures MayCreate(tree, files[n], privileged) <==> Layable(files, n + 1, privileged)
    ensures !MayCreate(tree, files[n], privileged) ==> !Layable(files, |files|, privileged)
  {
    hide TreeOf, MayCreate, Compatible, Nameable;
    if MayCreate(tree, files[n], privileged) {
      MayBeNamed(tree, files[n], privileged);
      forall i | 0 <= i < n ensures Compatible(files[i], files[n], privileged) {
        FitsBeside(sha, blocks, files, n, tree, privileged, i);
      }
    } else if Nameable(files[n].path) {
      var i := InTheWay(sha, blocks, files, n, tree, privileged);
    }
  }

  lemma MayBeNamed(tree: Tree, f: ManifestFile, privileged: bool)
    requires MayCreate(tree, f, privileged)
    ensures Nameable(f.path)
  {
  }

  lemma FitsBeside(sha: Hash, blocks: Blocks, files: seq<ManifestFile>, n: nat, tree: Tree, privileged: bool, i: nat)
    requires i < n < |files| && TreeOf(sha, blocks, files, n, tree) && Layable(files, n, privileged)
    requires MayCreate(tree, files[n], privileged)
    ensures Compatible(files[i], files[n], privileged)
  {
    hide PlaceOf, Nameable, AllReadable, Rebuilt, OwnerWritable;
    if PlaceOf(files[i]) == PlaceOf(files[n]) {
      if Last(files, i, n) {
        assert InTree(sha, blocks, files[i], tree);
      } else {
        var k :| i < k < n && PlaceOf(files[k]) == PlaceOf(files[i]);
        assert Compatible(files[i], files[k], privileged);
      }
    } else {
      assert PlaceOf(files[i]) in tree;
    }
  }

  lemma InTheWay(sha: Hash, blocks: Blocks, files: seq<ManifestFile>, n: nat, tree: Tree, privileged: bool) returns (i: nat)
    requires n < |files| && TreeOf(sha, blocks, files, n, tree) && Nameable(files[n].path)
    requires !MayCreate(tree, files[n], privileged)
    ensures i < n && !Compatible(files[i], files[n], privileged)
  {
    hide PlaceOf, Nameable, AllReadable, Rebuilt, OwnerWritable;
    var place :| place in tree &&
      (place < PlaceOf(files[n]) || PlaceOf(files[n]) < place
       || (place == PlaceOf(files[n]) && !privileged && !OwnerWritable(tree[place].mode)));
    assert Taken(files, n, place);
    i :| 0 <= i < n && PlaceOf(files[i]) == place && Last(files, i, n);
    assert InTree(sha, blocks, files[i], tree);
  }

  lemma PlaceFile(sha: Hash, blocks: Blocks, files: seq<ManifestFile>, n: nat, tree: Tree, out: OutFile)
    requires n < |files| && TreeOf(sha, blocks, files, n, tree) && IsRebuilt(sha, blocks, files[n], out)
    ensures TreeOf(sha, blocks, files, n + 1, tree[PlaceOf(files[n]) := out])
  {
    hide IsRebuilt, PlaceOf, Last, Taken;
    var now := tree[PlaceOf(files[n]) := out];
    forall i | 0 <= i < n + 1 && Last(files, i, n + 1) ensures InTree(sha, blocks, files[i], now) {
      LastMore(files, i, n);
    }
    forall place | place in now ensures Taken(files, n + 1, place) { TakenMore(files, n, place); }
  }

  lemma LastMore(files: seq<ManifestFile>, i: nat, n: nat)
    requires i <= n < |files|
    ensures Last(files, i, n + 1) <==> i == n || (Last(files, i, n) && PlaceOf(files[i]) != PlaceOf(files[n]))
  {
    hide PlaceOf;
  }

  lemma TakenMore(files: seq<ManifestFile>, n: nat, place: seq<string>)
    requires n < |files| && (place == PlaceOf(files[n]) || Taken(files, n, place))
    ensures Taken(files, n + 1, place)
  {
    hide PlaceOf, Last;
    LastMore(files, n, n);
    if place != PlaceOf(files[n]) {
      var i :| 0 <= i < n && PlaceOf(files[i]) == place && Last(files, i, n);
      LastMore(files, i, n);
    }
  }

  ghost predicate AllHeld(sha: Hash, blocks: Blocks, list: seq<Block>) {
    forall k :: 0 <= k < |list| ==> Held(sha, blocks, list[k])
  }

  lemma StartAccount(have: set<string>, files: seq<ManifestFile>)
    ensures Accounted(AllBlocks(files[..0]), have, Totals({}, 0, [], 0)) && TotalLen(files[..0]) == 0
  {
  }

  lemma EndAccount(done: seq<Block>, have: set<string>, t: Totals)
    requires Accounted(done, have, t)
    ensures forall bytes: U64 :: Answers(done, have, StartResponse(t.known, bytes, t.bytes, t.missing))
  {
  }
}
