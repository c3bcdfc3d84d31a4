/**
  A push, end to end: the client cuts its files into blocks (src/server.rs:1784-1846),
  sends the ones the server misses (src/server.rs:1679-1693) and the server rebuilds
  the files. Other clients use the same store meanwhile.
 */
module Push {
  import opened Layout
  import opened Sparse
  import opened Hex
  import opened Frames
  import opened Manifests
  import opened Cas

  /** A file of the pushed instance, which does not change while it is pushed. */
  datatype SourceFile = SourceFile(path: string, bytes: seq<Byte>, mode: nat, extents: seq<Extent>)

  ghost predicate Collected(f: SourceFile) {
    |f.bytes| <= U64_MAX && CoversData(f.extents, f.bytes)
  }

  function SliceOf(f: SourceFile, offset: nat, len: nat): seq<Byte>
    requires offset + len <= |f.bytes|
  {
    f.bytes[offset..offset + len]
  }

  // ------------------------------------------------------------ cutting files into blocks

  /** A block says what the file holds there. */
  ghost predicate Cut(sha: Hash, f: SourceFile, b: Block) {
    ValidBlock(b, |f.bytes|) && b.sha256 == NameOf(sha, SliceOf(f, b.offset, b.len))
  }

  /** Blocks in order that leave out only zeros below `end`. */
  ghost predicate CutUpTo(sha: Hash, f: SourceFile, list: seq<Block>, end: nat) {
    && end <= |f.bytes|
    && (forall k :: 0 <= k < |list| ==> Cut(sha, f, list[k]) && list[k].offset + list[k].len <= end)
    && Apart(list)
    && (forall i :: 0 <= i < end && OutsideBlocks(list, |list|, i) ==> f.bytes[i] == 0)
  }

  lemma NothingCut(sha: Hash, f: SourceFile, sources: Sources)
    ensures CutUpTo(sha, f, [], 0) && AllNamed([], sources)
  {
  }

  lemma CutMore(sha: Hash, f: SourceFile, list: seq<Block>, end: nat, b: Block)
    requires CutUpTo(sha, f, list, end) && Cut(sha, f, b) && b.offset == end
    ensures CutUpTo(sha, f, list + [b], end + b.len)
  {
    hide NameOf, ValidSha256Hex;
    var longer := list + [b];
    forall i | 0 <= i < end + b.len && OutsideBlocks(longer, |longer|, i) ensures f.bytes[i] == 0 {
      assert !InBlock(longer[|list|], i);
      forall k | 0 <= k < |list| ensures !InBlock(list[k], i) { assert longer[k] == list[k]; }
      assert OutsideBlocks(list, |list|, i);
    }
  }

  /** Between extents there are only zeros. */
  lemma SkipGap(sha: Hash, f: SourceFile, list: seq<Block>, e: nat, end: nat, next: nat)
    requires CutUpTo(sha, f, list, end) && CoversData(f.extents, f.bytes) && e <= |f.extents|
    requires e > 0 ==> End(f.extents[e - 1]) <= end
    requires end <= next == if e < |f.extents| then f.extents[e].offset else |f.bytes|
    ensures CutUpTo(sha, f, list, next)
  {
    hide Cut, Apart;
    forall i | end <= i < next ensures f.bytes[i] == 0 {
      assert forall k :: 0 <= k < |f.extents| ==> !(f.extents[k].offset <= i < End(f.extents[k]));
      assert !Inside(f.extents, i);
    }
  }

  datatype BlockSource = BlockSource(file: nat, offset: nat, len: nat)

  type Sources = map<string, BlockSource>

  predicate SourceOk(sha: Hash, files: seq<SourceFile>, name: string, s: BlockSource) {
    && s.file < |files| && 0 < s.len <= CAS_BLOCK_SIZE && s.offset + s.len <= |files[s.file].bytes|
    && NameOf(sha, SliceOf(files[s.file], s.offset, s.len)) == name
  }

  ghost predicate SourcesOk(sha: Hash, files: seq<SourceFile>, sources: Sources) {
    forall name :: name in sources ==> SourceOk(sha, files, name, sources[name])
  }

  /** The zero block needs no digest: it is known. */
  method BlockName(sha: Hash, buf: seq<Byte>) returns (name: string)
    ensures name == NameOf(sha, buf)
  {
    if |buf| == CAS_BLOCK_SIZE && AllZero(buf) {
      assert buf == ZeroBlock();
      return ZeroName(sha);
    }
    return NameOf(sha, buf);
  }

  ghost predicate AllNamed(list: seq<Block>, sources: Sources) {
    forall k :: 0 <= k < |list| ==> list[k].sha256 in sources
  }

  lemma NameBlock(sha: Hash, files: seq<SourceFile>, list: seq<Block>, sources: Sources, b: Block, s: BlockSource)
    requires SourcesOk(sha, files, sources) && AllNamed(list, sources) && SourceOk(sha, files, b.sha256, s)
    ensures var now := if b.sha256 in sources then sources else sources[b.sha256 := s];
            SourcesOk(sha, files, now) && AllNamed(list + [b], now)
  {
    hide SourceOk;
  }

  /** File `n` is cut up to `end`, and every block cut so far has a source. */
  ghost predicate Cutting(sha: Hash, files: seq<SourceFile>, n: nat, list: seq<Block>, sources: Sources, end: nat)
    ensures Cutting(sha, files, n, list, sources, end) ==> n < |files| && |files[n].bytes| <= U64_MAX
  {
    && n < |files| && |files[n].bytes| <= U64_MAX
    && CutUpTo(sha, files[n], list, end) && SourcesOk(sha, files, sources) && AllNamed(list, sources)
  }

  lemma CutBlock(sha: Hash, files: seq<SourceFile>, n: nat, list: seq<Block>, sources: Sources, b: Block)
    requires Cutting(sha, files, n, list, sources, b.offset)
    requires 0 < b.len <= CAS_BLOCK_SIZE && b.offset + b.len <= |files[n].bytes|
    requires b.sha256 == NameOf(sha, SliceOf(files[n], b.offset, b.len))
    ensures var now := if b.sha256 in sources then sources else sources[b.sha256 := BlockSource(n, b.offset, b.len)];
            Cutting(sha, files, n, list + [b], now, b.offset + b.len)
  {
    hide CutUpTo, NameOf, ValidSha256Hex, SourcesOk, AllNamed;
    CutMore(sha, files[n], list, b.offset, b);
    NameBlock(sha, files, list, sources, b, BlockSource(n, b.offset, b.len));
  }

  /** How many blocks an extent makes. */
  function BlockCount(e: Extent): nat { (e.len + 65535) / 65536 }

  /** The `k`-th block of an extent: 64 KiB, and what is left in the last one. */
  ghost predicate IsBlockOf(b: Block, e: Extent, k: nat) {
    && b.offset == e.offset + 65536 * k
    && b.len == if k + 1 < BlockCount(e) then 65536 else e.len - 65536 * k
  }

  /** From position `at` the list has the blocks of `e`, one after another. */
  ghost predicate EvenlyCut(list: seq<Block>, at: nat, e: Extent) {
    && at + BlockCount(e) <= |list|
    && forall i :: at <= i < at + BlockCount(e) ==> IsBlockOf(list[i], e, i - at)
  }

  /** The position of the blocks of extent `e`. */
  ghost function BlocksBefore(extents: seq<Extent>, e: nat): nat
    requires e <= |extents|
  {
    if e == 0 then 0 else BlocksBefore(extents, e - 1) + BlockCount(extents[e - 1])
  }

  /** The list has the blocks of the first `n` extents, in order, and no others. */
  ghost predicate AllEvenlyCut(list: seq<Block>, extents: seq<Extent>, n: nat) {
    && n <= |extents| && |list| == BlocksBefore(extents, n)
    && forall e: nat :: e < n ==> EvenlyCut(list, BlocksBefore(extents, e), extents[e])
  }

  lemma CutStaysCut(list: seq<Block>, list': seq<Block>, at: nat, e: Extent)
    requires EvenlyCut(list, at, e) && |list| <= |list'| && list'[..|list|] == list
    ensures EvenlyCut(list', at, e)
  {
    hide BlockCount, IsBlockOf;
    forall i | at <= i < at + BlockCount(e) ensures IsBlockOf(list'[i], e, i - at) {
      assert list'[..|list|][i] == list[i];
    }
  }

  lemma OneMoreExtent(list: seq<Block>, list': seq<Block>, extents: seq<Extent>, n: nat)
    requires AllEvenlyCut(list, extents, n) && n < |extents|
    requires |list'| == |list| + BlockCount(extents[n]) && list'[..|list|] == list && EvenlyCut(list', |list|, extents[n])
    ensures AllEvenlyCut(list', extents, n + 1)
  {
    hide BlockCount, IsBlockOf;
    forall e: nat | e < n ensures EvenlyCut(list', BlocksBefore(extents, e), extents[e]) {
      CutStaysCut(list, list', BlocksBefore(extents, e), extents[e]);
    }
  }

  /** One extent cut into blocks of 64 KiB and a shorter last one. */
  method CutExtent(sha: Hash, files: seq<SourceFile>, n: nat, extent: Extent, list: seq<Block>, sources: Sources)
    returns (list': seq<Block>, sources': Sources)
    requires Cutting(sha, files, n, list, sources, extent.offset) && End(extent) <= |files[n].bytes|
    ensures Cutting(sha, files, n, list', sources', End(extent)) && sources.Keys <= sources'.Keys
    ensures |list'| == |list| + BlockCount(extent) && list'[..|list|] == list && EvenlyCut(list', |list|, extent)
  {
    hide Cutting, NameOf, SliceOf;
    list', sources' := list, sources;
    var offset, end := extent.offset, End(extent);
    while offset < end
      invariant offset <= end && |list| <= |list'| && list'[..|list|] == list
      invariant offset == end || offset == extent.offset + 65536 * (|list'| - |list|)
      invariant offset == end ==> |list'| - |list| == BlockCount(extent)
      invariant forall i :: |list| <= i < |list'| ==> IsBlockOf(list'[i], extent, i - |list|)
      invariant Cutting(sha, files, n, list', sources', offset) && sources.Keys <= sources'.Keys
      decreases end - offset
    {
      var len := if end - offset < CAS_BLOCK_SIZE then end - offset else CAS_BLOCK_SIZE;
      var name := BlockName(sha, SliceOf(files[n], offset, len));
      var b := Block(offset, len, name);
      CutBlock(sha, files, n, list', sources', b);
      list' := list' + [b];
      if name !in sources' { sources' := sources'[name := BlockSource(n, offset, len)]; }
      offset := offset + len;
    }
  }

  ghost predicate FilesCut(sha: Hash, files: seq<SourceFile>, cut: seq<ManifestFile>) {
    && |cut| <= |files|
    && (forall i :: 0 <= i < |cut| ==> IsCutOf(sha, files[i], cut[i]))
  }

  ghost predicate IsCutOf(sha: Hash, f: SourceFile, cut: ManifestFile) {
    && cut.path == f.path && cut.len == |f.bytes| && cut.mode == f.mode
    && CutUpTo(sha, f, cut.blocks, |f.bytes|) && AllEvenlyCut(cut.blocks, f.extents, |f.extents|)
  }

  lemma NoExtent(extents: seq<Extent>)
    ensures AllEvenlyCut([], extents, 0)
  {
  }

  method CutFile(sha: Hash, files: seq<SourceFile>, n: nat, sources: Sources) returns (list: seq<Block>, sources': Sources)
    requires n < |files| && Collected(files[n]) && SourcesOk(sha, files, sources)
    ensures Cutting(sha, files, n, list, sources', |files[n].bytes|) && sources.Keys <= sources'.Keys
    ensures AllEvenlyCut(list, files[n].extents, |files[n].extents|)
  {
    hide AllEvenlyCut, EvenlyCut, BlockCount, CutUpTo, SourcesOk, Inside, AllNamed;
    var f := files[n];
    list, sources' := [], sources;
    NothingCut(sha, f, sources);
    ghost var end := 0;
    NoExtent(f.extents);
    for e := 0 to |f.extents|
      invariant AllEvenlyCut(list, f.extents, e)
      invariant Cutting(sha, files, n, list, sources', end) && sources.Keys <= sources'.Keys
      invariant end == if e == 0 then 0 else End(f.extents[e - 1])
    {
      SkipGap(sha, f, list, e, end, f.extents[e].offset);
      ghost var was := list;
      list, sources' := CutExtent(sha, files, n, f.extents[e], list, sources');
      OneMoreExtent(was, list, f.extents, e);
      end := End(f.extents[e]);
    }
    SkipGap(sha, f, list, |f.extents|, end, |f.bytes|);
  }

  method Open(sha: Hash, files: seq<SourceFile>, instance: string) returns (m: PushManifest, sources: Sources)
    requires forall i :: 0 <= i < |files| ==> Collected(files[i])
    ensures m.version == 2 && m.sourceInstance == instance && |m.files| == |files| && FilesCut(sha, files, m.files)
    ensures SourcesOk(sha, files, sources)
    ensures forall i :: 0 <= i < |m.files| ==> AllNamed(m.files[i].blocks, sources)
  {
    hide Collected, IsCutOf, SourcesOk, CutUpTo, AllEvenlyCut;
    var cut: seq<ManifestFile> := [];
    sources := map[];
    NoSources(sha, files);
    for i := 0 to |files|
      invariant |cut| == i && FilesCut(sha, files, cut) && SourcesOk(sha, files, sources)
      invariant forall k :: 0 <= k < i ==> AllNamed(cut[k].blocks, sources)
    {
      var blocks;
      ghost var was := sources;
      blocks, sources := CutFile(sha, files, i, sources);
      FitsU64(files[i]);
      var file := ManifestFile(files[i].path, |files[i].bytes|, files[i].mode, blocks);
      CutIsCut(sha, files[i], file);
      assert forall k :: 0 <= k < i ==> AllNamed(cut[k].blocks, was);
      cut := cut + [file];
    }
    m := PushManifest(2, instance, cut);
  }

  lemma NoSources(sha: Hash, files: seq<SourceFile>)
    ensures SourcesOk(sha, files, map[])
  {
  }

  lemma FitsU64(f: SourceFile)
    requires Collected(f)
    ensures |f.bytes| <= U64_MAX
  {
  }

  lemma CutIsCut(sha: Hash, f: SourceFile, cut: ManifestFile)
    requires cut.path == f.path && cut.len == |f.bytes| && cut.mode == f.mode && CutUpTo(sha, f, cut.blocks, |f.bytes|)
    requires AllEvenlyCut(cut.blocks, f.extents, |f.extents|)
    ensures IsCutOf(sha, f, cut)
  {
  }

  // ------------------------------------------------------------ sending what is missing

  function ReadSource(files: seq<SourceFile>, s: BlockSource): seq<Byte>
    requires s.file < |files| && s.offset + s.len <= |files[s.file].bytes|
  {
    SliceOf(files[s.file], s.offset, s.len)
  }

  /** A frame that carries a block of the client under its own digest. */
  ghost predicate IsSent(sha: Hash, files: seq<SourceFile>, name: string, f: Frame) {
    && NameOf(sha, f.raw) == name && HexOf(f.digest) == name
    && 0 < |f.raw| <= CAS_BLOCK_SIZE && IsChunk(files, f.raw)
  }

  ghost predicate IsChunk(files: seq<SourceFile>, raw: seq<Byte>) {
    exists i, offset :: 0 <= i < |files| && 0 <= offset && offset + |raw| <= |files[i].bytes| && raw == SliceOf(files[i], offset, |raw|)
  }

  ghost predicate AreSent(sha: Hash, files: seq<SourceFile>, names: seq<string>, frames: seq<Frame>) {
    && |frames| == |names|
    && (forall k :: 0 <= k < |names| ==> IsSent(sha, files, names[k], frames[k]))
  }

  lemma SendSource(sha: Hash, files: seq<SourceFile>, name: string, s: BlockSource)
    requires SourceOk(sha, files, name, s)
    ensures ValidSha256Hex(name) && IsSent(sha, files, name, Frame(BytesOf(name), ReadSource(files, s)))
  {
    var raw := ReadSource(files, s);
    assert raw == SliceOf(files[s.file], s.offset, |raw|);
    HexRoundTrip(sha(raw));
  }

  lemma SendMore(sha: Hash, files: seq<SourceFile>, names: seq<string>, frames: seq<Frame>, name: string, f: Frame)
    requires AreSent(sha, files, names, frames) && IsSent(sha, files, name, f)
    ensures AreSent(sha, files, names + [name], frames + [f])
    ensures Fit(frames) && Fit(frames + [f]) && EncodeAll(frames + [f]) == EncodeAll(frames) + Encode(f)
  {
    hide IsChunk, NameOf;
    EncodeMore(frames, f);
  }

  /** The stream for a list of names, failing on one the client does not have. */
  method Pack(sha: Hash, files: seq<SourceFile>, sources: Sources, missing: seq<string>)
    returns (stream: Option<seq<Byte>>, ghost frames: seq<Frame>)
    requires SourcesOk(sha, files, sources)
    ensures stream.Some? <==> forall k :: 0 <= k < |missing| ==> missing[k] in sources
    ensures stream.Some? ==> AreSent(sha, files, missing, frames) && Fit(frames) && stream.value == EncodeAll(frames)
  {
    hide SourceOk, IsSent, EncodeAll, Encode, ValidSha256Hex, SliceOf;
    var output: seq<Byte> := [];
    frames := [];
    EmptyStream();
    for i := 0 to |missing|
      invariant forall k :: 0 <= k < i ==> missing[k] in sources
      invariant AreSent(sha, files, missing[..i], frames) && Fit(frames) && output == EncodeAll(frames)
    {
      if missing[i] !in sources { return None, []; }
      var source := sources[missing[i]];
      SourceInBounds(sha, files, missing[i], source);
      SendSource(sha, files, missing[i], source);
      var raw := ReadSource(files, source);
      var longer := WriteFrame(output, missing[i], raw);
      ghost var f := Frame(BytesOf(missing[i]), raw);
      SentFits(sha, files, missing[i], f);
      SendMore(sha, files, missing[..i], frames, missing[i], f);
      assert missing[..i + 1] == missing[..i] + [missing[i]];
      output, frames := longer.value, frames + [f];
    }
    assert missing[..|missing|] == missing;
    return Some(output), frames;
  }

  lemma EmptyStream()
    ensures Fit([]) && EncodeAll([]) == []
  {
  }

  lemma SourceInBounds(sha: Hash, files: seq<SourceFile>, name: string, s: BlockSource)
    requires SourceOk(sha, files, name, s)
    ensures s.file < |files| && s.offset + s.len <= |files[s.file].bytes|
  {
  }

  lemma SentFits(sha: Hash, files: seq<SourceFile>, name: string, f: Frame)
    requires IsSent(sha, files, name, f)
    ensures |f.raw| <= CAS_BLOCK_SIZE
  {
  }

  // ------------------------------------------------------------ the whole push

  /** The digest tells these blocks apart. */
  ghost predicate CollisionFree(sha: Hash, universe: iset<seq<Byte>>) {
    forall x, y :: x in universe && y in universe && sha(x) == sha(y) ==> x == y
  }

  ghost predicate StoredIn(blocks: Blocks, universe: iset<seq<Byte>>) {
    forall name :: name in blocks ==> blocks[name] in universe
  }

  ghost predicate CarriedIn(stream: seq<Byte>, universe: iset<seq<Byte>>) {
    forall k :: 0 <= k < |ParseAll(stream).frames| ==> ParseAll(stream).frames[k].raw in universe
  }

  ghost predicate ChunksIn(files: seq<SourceFile>, universe: iset<seq<Byte>>) {
    forall raw :: IsChunk(files, raw) ==> raw in universe
  }

  /** Whatever a stream stores was carried by it. */
  lemma StreamStaysIn(sha: Hash, blocks: Blocks, frames: seq<Frame>, universe: iset<seq<Byte>>)
    requires StoredIn(blocks, universe) && forall k :: 0 <= k < |frames| ==> frames[k].raw in universe
    ensures StoredIn(KeptAll(sha, blocks, frames), universe)
  {
    var now := KeptAll(sha, blocks, frames);
    forall name | name in now ensures now[name] in universe {
      if name in blocks { AcceptedAreKept(sha, blocks, frames); } else { KeptAreSent(sha, blocks, frames, name); }
    }
  }

  /** A stored block of the same name has the bytes the client cut. */
  lemma SameBlock(sha: Hash, blocks: Blocks, f: SourceFile, b: Block, universe: iset<seq<Byte>>)
    requires GoodBlocks(sha, blocks) && StoredIn(blocks, universe) && CollisionFree(sha, universe)
    requires Cut(sha, f, b) && SliceOf(f, b.offset, b.len) in universe && ZeroBlock() in universe
    requires Held(sha, blocks, b)
    ensures Readable(sha, blocks, b)
    ensures forall i :: 0 <= i < b.len ==> ByteOf(sha, blocks, b, i) == f.bytes[b.offset + i]
  {
    hide NameOf, ZeroName, ZeroBlock, ValidSha256Hex;
    var raw := SliceOf(f, b.offset, b.len);
    var stored := if b.sha256 == ZeroName(sha) then ZeroBlock() else blocks[b.sha256];
    SameName(sha, raw, stored);
    ZeroNameIs(sha);
    assert raw == stored;
    forall i | 0 <= i < b.len ensures ByteOf(sha, blocks, b, i) == f.bytes[b.offset + i] {
      assert raw[i] == stored[i];
    }
  }

  lemma SameName(sha: Hash, x: seq<Byte>, y: seq<Byte>)
    ensures NameOf(sha, x) == NameOf(sha, y) ==> sha(x) == sha(y)
  {
    if NameOf(sha, x) == NameOf(sha, y) { HexIsInjective(sha(x), sha(y)); }
  }

  lemma ZeroNameIs(sha: Hash)
    ensures ZeroName(sha) == NameOf(sha, ZeroBlock()) && |ZeroBlock()| == CAS_BLOCK_SIZE
    ensures forall i :: 0 <= i < CAS_BLOCK_SIZE ==> ZeroBlock()[i] == 0
  {
    hide NameOf;
  }

  /** A file cut, held and rebuilt is the file again. */
  lemma FileComesBack(sha: Hash, blocks: Blocks, files: seq<SourceFile>, n: nat, cut: ManifestFile, universe: iset<seq<Byte>>)
    requires GoodBlocks(sha, blocks) && StoredIn(blocks, universe) && CollisionFree(sha, universe)
    requires n < |files| && IsCutOf(sha, files[n], cut) && ChunksIn(files, universe) && ZeroBlock() in universe
    requires AllHeld(sha, blocks, cut.blocks)
    ensures AllReadable(sha, blocks, cut.blocks)
    ensures forall out :: IsRebuilt(sha, blocks, cut, out) ==> out == OutFile(files[n].bytes, files[n].mode % 4096)
  {
    hide GoodBlocks, StoredIn, CollisionFree, NameOf, ZeroName, ValidSha256Hex, ByteOf, Readable;
    var f := files[n];
    forall k | 0 <= k < |cut.blocks|
      ensures Readable(sha, blocks, cut.blocks[k])
      ensures forall i :: 0 <= i < cut.blocks[k].len ==> ByteOf(sha, blocks, cut.blocks[k], i) == f.bytes[cut.blocks[k].offset + i]
    {
      var b := cut.blocks[k];
      assert Cut(sha, f, b);
      var raw := SliceOf(f, b.offset, b.len);
      assert raw == SliceOf(files[n], b.offset, |raw|);
      assert IsChunk(files, raw);
      SameBlock(sha, blocks, f, b, universe);
    }
    forall out | IsRebuilt(sha, blocks, cut, out) ensures out.bytes == f.bytes {
      SameBytes(sha, blocks, f, cut, out);
    }
  }

  lemma SameBytes(sha: Hash, blocks: Blocks, f: SourceFile, cut: ManifestFile, out: OutFile)
    requires IsCutOf(sha, f, cut) && IsRebuilt(sha, blocks, cut, out)
    requires forall k, i :: 0 <= k < |cut.blocks| && 0 <= i < cut.blocks[k].len ==>
               ByteOf(sha, blocks, cut.blocks[k], i) == f.bytes[cut.blocks[k].offset + i]
    ensures out.bytes == f.bytes
  {
    hide Cut, Apart, ByteOf, Readable;
    forall i | 0 <= i < |f.bytes| ensures out.bytes[i] == f.bytes[i] {
      if !OutsideBlocks(cut.blocks, |cut.blocks|, i) {
        var k :| 0 <= k < |cut.blocks| && InBlock(cut.blocks[k], i);
        assert ByteOf(sha, blocks, cut.blocks[k], i - cut.blocks[k].offset) == f.bytes[i];
      }
    }
  }

  /** Files found by walking a directory: safe relative paths ending in a name, none of
      them a directory of another. */
  ghost predicate Walked(files: seq<SourceFile>) {
    && (forall i :: 0 <= i < |files| ==> Collected(files[i]) && SafePath(files[i].path) && Nameable(files[i].path))
    && (forall j, k :: 0 <= j < k < |files| ==> !(Place(files[j]) <= Place(files[k])) && !(Place(files[k]) <= Place(files[j])))
  }

  function Place(f: SourceFile): seq<string> { Walk([], Split(f.path)) }

  /** Every manifest the client builds passes validation. */
  lemma OpenedIsValid(sha: Hash, files: seq<SourceFile>, m: PushManifest)
    requires Walked(files) && ValidInstanceName(m.sourceInstance) && |m.files| == |files| && FilesCut(sha, files, m.files)
    ensures ValidManifest(m) && forall privileged :: Layable(m.files, |m.files|, privileged)
    ensures forall j, k :: 0 <= j < k < |m.files| ==> PlaceOf(m.files[j]) != PlaceOf(m.files[k])
  {
    hide Collected, SafePath, NameOf, ValidInstanceName, Walk, Split, Nameable;
    forall i | 0 <= i < |m.files| ensures ValidFile(m.files[i]) && m.files[i].path == files[i].path {
      NotEmpty(files[i].path);
      assert IsCutOf(sha, files[i], m.files[i]);
      assert forall k :: 0 <= k < |m.files[i].blocks| ==> Cut(sha, files[i], m.files[i].blocks[k]);
    }
  }

  lemma NotEmpty(path: string)
    ensures Nameable(path) ==> path != ""
  {
  }

  /** Whoever else stores what meanwhile, once the missing blocks have been sent
      the commit finds every block. */
  lemma MissingArrived(sha: Hash, was: Blocks, now: Blocks, list: seq<Block>, r: StartResponse)
    requires Answers(list, was.Keys + {ZeroName(sha)}, r) && Grown(was, now)
    requires forall k :: 0 <= k < |r.missing| ==> r.missing[k] in now
    ensures forall b :: b in list ==> Held(sha, now, b)
  {
    hide ZeroName, FirstLens;
    forall b | b in list ensures Held(sha, now, b) {
      assert b.sha256 in Names(list);
      if b.sha256 != ZeroName(sha) && b.sha256 !in was { assert b.sha256 in r.missing; }
    }
  }

  /** The stream the client packs is read back whole and every block in it is stored. */
  lemma PackedArrives(sha: Hash, blocks: Blocks, files: seq<SourceFile>, names: seq<string>, frames: seq<Frame>)
    requires AreSent(sha, files, names, frames) && Fit(frames) && ZeroName(sha) !in names
    ensures ParseAll(EncodeAll(frames)) == Parsed(frames, true) && Accepted(sha, frames) == |frames|
    ensures forall k :: 0 <= k < |names| ==> names[k] in KeptAll(sha, blocks, frames)
  {
    hide NameOf, ZeroName, IsChunk, ParseAll, EncodeAll, KeptAll;
    StreamRoundTrip(frames, []);
    assert EncodeAll(frames) + [] == EncodeAll(frames);
    AllMatch(sha, frames);
    AcceptedAreKept(sha, blocks, frames);
    forall k | 0 <= k < |names| ensures names[k] in KeptAll(sha, blocks, frames) {
      assert IsSent(sha, files, names[k], frames[k]) && names[k] in names;
    }
  }

  lemma {:induction false} AllMatch(sha: Hash, frames: seq<Frame>)
    requires forall k :: 0 <= k < |frames| ==> Matches(sha, frames[k])
    ensures Accepted(sha, frames) == |frames|
    decreases |frames|
  {
    hide Matches;
    if frames != [] { AllMatch(sha, frames[1..]); }
  }

  lemma SentIn(sha: Hash, files: seq<SourceFile>, names: seq<string>, frames: seq<Frame>, universe: iset<seq<Byte>>)
    requires AreSent(sha, files, names, frames) && ChunksIn(files, universe)
    ensures forall k :: 0 <= k < |frames| ==> frames[k].raw in universe
  {
    hide NameOf, IsChunk;
    forall k | 0 <= k < |frames| ensures frames[k].raw in universe { assert IsSent(sha, files, names[k], frames[k]); }
  }

  lemma NamesHaveSources(m: PushManifest, sources: Sources, list: seq<Block>, names: seq<string>)
    requires forall i :: 0 <= i < |m.files| ==> AllNamed(m.files[i].blocks, sources)
    requires list == AllBlocks(m.files) && forall name :: name in names ==> name in Names(list)
    ensures forall k :: 0 <= k < |names| ==> names[k] in sources
  {
    hide AllNamed, AllBlocks;
    AllBlocksNamed(m.files, sources);
    forall k | 0 <= k < |names| ensures names[k] in sources {
      assert names[k] in Names(list);
    }
  }

  lemma {:induction false} AllBlocksNamed(files: seq<ManifestFile>, sources: Sources)
    requires forall i :: 0 <= i < |files| ==> AllNamed(files[i].blocks, sources)
    ensures forall b :: b in AllBlocks(files) ==> b.sha256 in sources
    decreases |files|
  {
    if files != [] {
      AllBlocksNamed(files[..|files| - 1], sources);
      assert AllNamed(files[|files| - 1].blocks, sources);
    }
  }

  lemma AllFilesHeld(sha: Hash, blocks: Blocks, files: seq<ManifestFile>)
    requires forall b :: b in AllBlocks(files) ==> Held(sha, blocks, b)
    ensures forall i :: 0 <= i < |files| ==> AllHeld(sha, blocks, files[i].blocks)
  {
    hide Held;
    forall i | 0 <= i < |files| ensures AllHeld(sha, blocks, files[i].blocks) {
      forall k | 0 <= k < |files[i].blocks| ensures Held(sha, blocks, files[i].blocks[k]) {
        BlockOfFile(files, i, files[i].blocks[k]);
      }
    }
  }

  lemma TreeIsSource(sha: Hash, blocks: Blocks, files: seq<SourceFile>, m: PushManifest, universe: iset<seq<Byte>>)
    requires GoodBlocks(sha, blocks) && StoredIn(blocks, universe) && CollisionFree(sha, universe)
    requires ChunksIn(files, universe) && ZeroBlock() in universe
    requires |m.files| == |files| && FilesCut(sha, files, m.files)
    requires forall j, k :: 0 <= j < k < |m.files| ==> PlaceOf(m.files[j]) != PlaceOf(m.files[k])
    requires forall i :: 0 <= i < |m.files| ==> AllHeld(sha, blocks, m.files[i].blocks)
    ensures FilesReadable(sha, blocks, m.files, |m.files|)
    ensures forall tree :: TreeOf(sha, blocks, m.files, |m.files|, tree) ==> IsCopy(files, tree)
  {
    hide GoodBlocks, StoredIn, CollisionFree, ChunksIn, AllHeld, AllReadable, CutUpTo, IsRebuilt, Walk, Split;
    forall i | 0 <= i < |files|
      ensures AllReadable(sha, blocks, m.files[i].blocks) && PlaceOf(m.files[i]) == Place(files[i])
      ensures forall out :: IsRebuilt(sha, blocks, m.files[i], out) ==> out == OutFile(files[i].bytes, files[i].mode % 4096)
    {
      assert IsCutOf(sha, files[i], m.files[i]);
      FileComesBack(sha, blocks, files, i, m.files[i], universe);
    }
    forall tree | TreeOf(sha, blocks, m.files, |m.files|, tree) ensures IsCopy(files, tree) {
      forall i | 0 <= i < |files| ensures HasCopy(files[i], tree) {
        assert Last(m.files, i, |m.files|);
        assert InTree(sha, blocks, m.files[i], tree);
      }
      forall place | place in tree ensures exists i :: 0 <= i < |files| && Place(files[i]) == place {
        assert Taken(m.files, |m.files|, place);
      }
    }
  }

  ghost predicate HasCopy(f: SourceFile, tree: Tree) {
    Place(f) in tree && tree[Place(f)] == OutFile(f.bytes, f.mode % 4096)
  }

  /** The tree holds the files, byte for byte, and nothing else. */
  ghost predicate IsCopy(files: seq<SourceFile>, tree: Tree) {
    && (forall i :: 0 <= i < |files| ==> HasCopy(files[i], tree))
    && (forall place :: place in tree ==> exists i :: 0 <= i < |files| && Place(files[i]) == place)
  }

  /** Push is the identity on files, whatever the server already holds and whatever
      streams others send before and after the client's own. */
  method PushInstance(server: CasStore, files: seq<SourceFile>, instance: string, before: seq<Byte>, after: seq<Byte>,
                      privileged: bool, ghost universe: iset<seq<Byte>>)
    returns (tree: Option<Tree>)
    requires server.Valid() && Walked(files) && ValidInstanceName(instance)
    requires CollisionFree(server.sha, universe) && StoredIn(server.blocks, universe) && ZeroBlock() in universe
    requires ChunksIn(files, universe) && CarriedIn(before, universe) && CarriedIn(after, universe)
    modifies server
    ensures server.Valid() && Grown(old(server.blocks), server.blocks)
    ensures tree.Some? && IsCopy(files, tree.value)
  {
    hide Walked, ValidInstanceName, CollisionFree, StoredIn, ChunksIn, CarriedIn, Answers, GoodBlocks, ZeroName, ZeroBlock,
         ValidManifest, FilesCut, SourcesOk, AllNamed, AreSent, Fit, EncodeAll, ParseAll, KeptAll, Accepted, Names,
         AllBlocks, Grown, Held, AllHeld, TreeOf, FilesReadable, IsCopy, PlaceOf, FirstLens, Collected, NoDuplicates;
    WalkedCollected(files);
    var m, sources := Open(server.sha, files, instance);
    OpenedIsValid(server.sha, files, m);
    var start := server.StartUpload(m);
    ghost var was, list := server.blocks, AllBlocks(m.files);
    StreamGrows(server.sha, server.blocks, before, universe);
    var _ := server.StoreStream(before);
    ghost var mid := server.blocks;
    MissingNamed(m, sources, list, server.sha, was, start.value);
    GrownSelf(mid);
    if start.value.missing != [] {
      var stream, frames := Pack(server.sha, files, sources, start.value.missing);
      PackedArrives(server.sha, mid, files, start.value.missing, frames);
      SentIn(server.sha, files, start.value.missing, frames, universe);
      PackedGrows(server.sha, mid, frames, universe);
      var count := server.StoreStream(stream.value);
      if count == None { return None; }
    }
    ghost var sent := server.blocks;
    StreamGrows(server.sha, server.blocks, after, universe);
    var _ := server.StoreStream(after);
    GrownOn(was, mid, sent, server.blocks, start.value.missing);
    MissingArrived(server.sha, was, server.blocks, list, start.value);
    AllFilesHeld(server.sha, server.blocks, m.files);
    TreeIsSource(server.sha, server.blocks, files, m, universe);
    var valid := ValidateManifest(m);
    if !valid { return None; }
    var present := server.VerifyBlocksExist(m);
    if !present { return None; }
    tree := server.ReconstructManifest(m, privileged);
  }

  lemma WalkedCollected(files: seq<SourceFile>)
    requires Walked(files)
    ensures forall i :: 0 <= i < |files| ==> Collected(files[i])
  {
  }

  lemma StreamGrows(sha: Hash, blocks: Blocks, stream: seq<Byte>, universe: iset<seq<Byte>>)
    requires StoredIn(blocks, universe) && CarriedIn(stream, universe)
    ensures var now := KeptAll(sha, blocks, ParseAll(stream).frames);
            StoredIn(now, universe) && Grown(blocks, now)
  {
    hide StoredIn, KeptAll, ParseAll;
    StreamStaysIn(sha, blocks, ParseAll(stream).frames, universe);
    AcceptedAreKept(sha, blocks, ParseAll(stream).frames);
  }

  lemma PackedGrows(sha: Hash, blocks: Blocks, frames: seq<Frame>, universe: iset<seq<Byte>>)
    requires StoredIn(blocks, universe) && forall k :: 0 <= k < |frames| ==> frames[k].raw in universe
    ensures StoredIn(KeptAll(sha, blocks, frames), universe) && Grown(blocks, KeptAll(sha, blocks, frames))
  {
    hide StoredIn, KeptAll;
    StreamStaysIn(sha, blocks, frames, universe);
    AcceptedAreKept(sha, blocks, frames);
  }

  lemma MissingNamed(m: PushManifest, sources: Sources, list: seq<Block>, sha: Hash, was: Blocks, r: StartResponse)
    requires forall i :: 0 <= i < |m.files| ==> AllNamed(m.files[i].blocks, sources)
    requires list == AllBlocks(m.files) && Answers(list, was.Keys + {ZeroName(sha)}, r)
    ensures ZeroName(sha) !in r.missing && forall k :: 0 <= k < |r.missing| ==> r.missing[k] in sources
  {
    hide ZeroName, FirstLens, AllNamed, Names;
    NamesHaveSources(m, sources, list, r.missing);
  }

  lemma GrownSelf(blocks: Blocks)
    ensures Grown(blocks, blocks)
  {
  }

  lemma GrownOn(was: Blocks, mid: Blocks, sent: Blocks, now: Blocks, names: seq<string>)
    requires Grown(was, mid) && Grown(mid, sent) && Grown(sent, now) && forall k :: 0 <= k < |names| ==> names[k] in sent
    ensures Grown(was, now) && forall k :: 0 <= k < |names| ==> names[k] in now
  {
  }
}
