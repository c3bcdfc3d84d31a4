/**
  The manifest of a push and its validation (src/server.rs:1373-1400), with the
  names it may use (src/server.rs:1190-1200, src/paths.rs:15-28).
 */
module Manifests {
  import opened Layout
  import opened Sparse
  import opened Hex
  import opened Frames

  type U64 = n: int | 0 <= n < 0x1_0000_0000_0000_0000

  datatype Block = Block(offset: U64, len: U64, sha256: string)

  datatype ManifestFile = ManifestFile(path: string, len: U64, mode: nat, blocks: seq<Block>)

  datatype PushManifest = PushManifest(version: nat, sourceInstance: string, files: seq<ManifestFile>)

  // ------------------------------------------------------------ names

  predicate IsNameChar(c: char) {
    'a' <= c <= 'z' || 'A' <= c <= 'Z' || '0' <= c <= '9' || c == '-' || c == '_' || c == '.'
  }

  predicate ValidInstanceName(name: string) {
    name != "" && name != "." && name != ".." && forall i :: 0 <= i < |name| ==> IsNameChar(name[i])
  }

  /** The components of a path, empty ones included. */
  function Split(path: string): (parts: seq<string>)
    ensures |parts| > 0
  {
    if path == "" then [""]
    else
      var rest := Split(path[1..]);
      if path[0] == '/' then [""] + rest else [[path[0]] + rest[0]] + rest[1..]
  }

  /** Components put back with a slash between each two. */
  ghost function Join(parts: seq<string>): string {
    if parts == [] then "" else if |parts| == 1 then parts[0] else parts[0] + "/" + Join(parts[1..])
  }

  ghost predicate NoSlash(parts: seq<string>) { forall k :: 0 <= k < |parts| ==> '/' !in parts[k] }

  lemma {:induction false} JoinOfSplit(path: string)
    ensures NoSlash(Split(path)) && Join(Split(path)) == path
    decreases |path|
  {
    if path != "" {
      var rest, parts := Split(path[1..]), Split(path);
      JoinOfSplit(path[1..]);
      if path[0] == '/' {
        assert parts[1..] == rest;
      } else {
        assert parts[1..] == rest[1..];
      }
      assert [path[0]] + path[1..] == path;
    }
  }

  lemma {:induction false} SplitOfJoin(parts: seq<string>)
    requires |parts| > 0 && NoSlash(parts)
    ensures Split(Join(parts)) == parts
    decreases |parts|, |parts[0]|
  {
    var path := Join(parts);
    if parts[0] != "" {
      var shorter := [parts[0][1..]] + parts[1..];
      assert '/' !in parts[0] && parts[0][0] in parts[0];
      assert NoSlash(shorter);
      SplitOfJoin(shorter);
      assert shorter[1..] == parts[1..];
      assert path[1..] == Join(shorter);
      assert parts[0] == [path[0]] + shorter[0];
      assert parts == [parts[0]] + parts[1..];
    } else if |parts| > 1 {
      assert path[1..] == Join(parts[1..]);
      SplitOfJoin(parts[1..]);
      assert parts == [""] + parts[1..];
    }
  }

  predicate SafePath(path: string) { (path == "" || path[0] != '/') && ".." !in Split(path) }

  /** Where a walk over `parts` that starts in the directory `at` ends. */
  function Walk(at: seq<string>, parts: seq<string>): seq<string>
    decreases |parts|
  {
    if parts == [] then at
    else if parts[0] == "" || parts[0] == "." then Walk(at, parts[1..])
    else if parts[0] == ".." then Walk(if at == [] then [] else at[..|at| - 1], parts[1..])
    else Walk(at + [parts[0]], parts[1..])
  }

  /** Joined to any directory, a safe path stays below it, wherever that directory is. */
  lemma {:induction false} WalkStaysBelow(at: seq<string>, parts: seq<string>)
    requires ".." !in parts
    ensures Walk(at, parts) == at + Walk([], parts)
    decreases |parts|
  {
    if parts != [] {
      var rest := parts[1..];
      if parts[0] == "" || parts[0] == "." {
        WalkStaysBelow(at, rest);
      } else {
        WalkStaysBelow(at + [parts[0]], rest);
        WalkStaysBelow([parts[0]], rest);
        assert [] + [parts[0]] == [parts[0]];
        assert (at + [parts[0]]) + Walk([], rest) == at + ([parts[0]] + Walk([], rest));
      }
    }
  }

  lemma SafePathStaysBelow(dest: seq<string>, path: string)
    requires SafePath(path)
    ensures Walk(dest, Split(path)) == dest + Walk([], Split(path))
  {
    WalkStaysBelow(dest, Split(path));
  }

  /** A relative path is safe exactly when no way to put it together has a ".." in it. */
  lemma SafePathMeans(path: string)
    ensures SafePath(path) <==>
              !("/" <= path) && forall parts :: |parts| > 0 && NoSlash(parts) && Join(parts) == path ==> ".." !in parts
  {
    JoinOfSplit(path);
    forall parts | |parts| > 0 && NoSlash(parts) && Join(parts) == path ensures parts == Split(path) {
      SplitOfJoin(parts);
    }
  }

  /** An instance name is one entry of whatever directory it is joined to. */
  lemma {:induction false} NameIsOneComponent(name: string)
    requires forall i :: 0 <= i < |name| ==> IsNameChar(name[i])
    ensures Split(name) == [name]
    decreases |name|
  {
    if name != "" {
      NameIsOneComponent(name[1..]);
      assert name == [name[0]] + name[1..];
    }
  }

  lemma NameStaysBelow(dest: seq<string>, name: string)
    requires ValidInstanceName(name)
    ensures Walk(dest, Split(name)) == dest + [name]
  {
    NameIsOneComponent(name);
    assert [name][1..] == [];
  }

  /** The characters by their codes: letters, digits, hyphen, period and underscore. */
  lemma NameMeans(name: string)
    ensures ValidInstanceName(name) <==>
              && 0 < |name| && !(|name| <= 2 && forall i :: 0 <= i < |name| ==> name[i] as int == 46)
              && forall i :: 0 <= i < |name| ==>
                   var n := name[i] as int; 97 <= n <= 122 || 65 <= n <= 90 || 48 <= n <= 57 || n == 45 || n == 46 || n == 95
  {
    if 0 < |name| <= 2 && forall i :: 0 <= i < |name| ==> name[i] as int == 46 {
      assert name == if |name| == 1 then "." else "..";
    }
  }

  // ------------------------------------------------------------ validation

  ghost predicate ValidBlock(b: Block, fileLen: nat) {
    ValidSha256Hex(b.sha256) && 0 < b.len <= CAS_BLOCK_SIZE && b.offset + b.len <= fileLen
  }

  ghost predicate Apart(blocks: seq<Block>) {
    forall j, k :: 0 <= j < k < |blocks| ==> blocks[j].offset + blocks[j].len <= blocks[k].offset
  }

  ghost predicate ValidBlocks(blocks: seq<Block>, fileLen: nat) {
    (forall k :: 0 <= k < |blocks| ==> ValidBlock(blocks[k], fileLen)) && Apart(blocks)
  }

  ghost predicate ValidFile(f: ManifestFile) {
    SafePath(f.path) && f.path != "" && ValidBlocks(f.blocks, f.len)
  }

  ghost predicate DistinctPaths(files: seq<ManifestFile>) {
    forall j, k :: 0 <= j < k < |files| ==> files[j].path != files[k].path
  }

  ghost predicate ValidManifest(m: PushManifest) {
    && ValidInstanceName(m.sourceInstance)
    && (forall k :: 0 <= k < |m.files| ==> ValidFile(m.files[k]))
    && DistinctPaths(m.files)
  }

  function SaturatingSub(x: U64, y: U64): U64 { if x < y then 0 else x - y }

  /** One pass, remembering where the previous block ended, accepts exactly the
      blocks that are in bounds and pairwise apart; no sum leaves 64 bits. */
  method ValidateBlocks(blocks: seq<Block>, fileLen: U64) returns (ok: bool)
    ensures ok <==> ValidBlocks(blocks, fileLen)
  {
    var previousEnd: U64 := 0;
    for i := 0 to |blocks|
      invariant ValidBlocks(blocks[..i], fileLen)
      invariant previousEnd == if i == 0 then 0 else blocks[i - 1].offset + blocks[i - 1].len
      invariant forall k :: 0 <= k < i ==> blocks[k].offset + blocks[k].len <= previousEnd
    {
      var b := blocks[i];
      if !ValidSha256Hex(b.sha256) || b.len == 0 || b.len > CAS_BLOCK_SIZE { return false; }
      if b.offset > fileLen || b.len > SaturatingSub(fileLen, b.offset) { return false; }
      if b.offset < previousEnd {
        assert !Apart(blocks);
        return false;
      }
      previousEnd := b.offset + b.len;
    }
    assert blocks[..|blocks|] == blocks;
    return true;
  }

  method ValidateManifest(m: PushManifest) returns (ok: bool)
    ensures ok <==> ValidManifest(m)
  {
    hide SafePath, ValidBlocks, ValidInstanceName;
    if !ValidInstanceName(m.sourceInstance) { return false; }
    var paths: set<string> := {};
    for i := 0 to |m.files|
      invariant forall k :: 0 <= k < i ==> ValidFile(m.files[k])
      invariant forall k :: 0 <= k < i ==> m.files[k].path in paths
      invariant forall p :: p in paths ==> exists k :: 0 <= k < i && m.files[k].path == p
      invariant forall j, k :: 0 <= j < k < i ==> m.files[j].path != m.files[k].path
    {
      var file := m.files[i];
      if !SafePath(file.path) || file.path in paths || file.path == "" { return false; }
      var ok := ValidateBlocks(file.blocks, file.len);
      if !ok { return false; }
      paths := paths + {file.path};
    }
    return true;
  }
}
