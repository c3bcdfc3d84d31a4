/**
  Sparse files: discovering the data extents of an image (src/server.rs:2064-2137),
  copying an image extent by extent (src/sparse_copy.rs:144-240) and punching holes
  into one (src/init.rs:558-654).

  A file is its bytes together with what the file system says is allocated; what is
  not allocated reads as zero. Seeks answer from the allocation, or fail.
 */
module Sparse {
  import opened Layout

  type Byte = b: int | 0 <= b < 256

  datatype File = File(bytes: seq<Byte>, alloc: seq<bool>)

  ghost predicate Sound(f: File)
    ensures Sound(f) ==> |f.alloc| == |f.bytes|
  {
    && |f.alloc| == |f.bytes|
    && (forall i :: 0 <= i < |f.bytes| && !f.alloc[i] ==> f.bytes[i] == 0)
  }

  datatype Extent = Extent(offset: nat, len: nat)

  function End(e: Extent): nat { e.offset + e.len }

  // ------------------------------------------------------------ lseek

  datatype Fault = NoFault | InvalidArgument | OtherError

  type Faults = nat -> Fault    // how a seek from each offset fails, if it does

  datatype Seek = Found(at: nat) | NotFound | Unsupported | Failed

  function Faulted(fault: Fault, answer: Seek): Seek {
    match fault
    case NoFault => answer
    case InvalidArgument => Unsupported
    case OtherError => Failed
  }

  /** The first position at or after `offset` whose allocation is `kind`. */
  function Next(alloc: seq<bool>, offset: nat, kind: bool): (at: nat)
    requires offset <= |alloc|
    ensures offset <= at <= |alloc|
    ensures at < |alloc| ==> alloc[at] == kind
    ensures forall i :: offset <= i < at ==> alloc[i] != kind
    decreases |alloc| - offset
  {
    if offset == |alloc| || alloc[offset] == kind then offset else Next(alloc, offset + 1, kind)
  }

  function SeekData(alloc: seq<bool>, offset: nat, faults: Faults): Seek
    requires offset < |alloc|
  {
    var at := Next(alloc, offset, true);
    Faulted(faults(offset), if at < |alloc| then Found(at) else NotFound)
  }

  /** The end of the file counts as a hole. */
  function SeekHole(alloc: seq<bool>, offset: nat, faults: Faults): Seek
    requires offset < |alloc|
  {
    Faulted(faults(offset), Found(Next(alloc, offset, false)))
  }

  // ------------------------------------------------------------ extents

  ghost predicate Inside(extents: seq<Extent>, i: int) {
    exists k :: 0 <= k < |extents| && extents[k].offset <= i < End(extents[k])
  }

  /** Non-empty, in bounds, in order, each ending before the next begins. */
  ghost predicate Ordered(extents: seq<Extent>, len: nat) {
    && (forall k :: 0 <= k < |extents| ==> extents[k].len > 0 && End(extents[k]) <= len)
    && (forall j, k :: 0 <= j < k < |extents| ==> End(extents[j]) <= extents[k].offset)
  }

  /** The maximal runs of allocated bytes, and nothing else. */
  ghost predicate DataExtents(extents: seq<Extent>, alloc: seq<bool>) {
    && Ordered(extents, |alloc|)
    && (forall j, k :: 0 <= j < k < |extents| ==> End(extents[j]) < extents[k].offset)
    && (forall i :: 0 <= i < |alloc| ==> (alloc[i] <==> Inside(extents, i)))
  }

  /** Whatever the extents leave out reads as zero. */
  ghost predicate CoversData(extents: seq<Extent>, bytes: seq<Byte>) {
    && Ordered(extents, |bytes|)
    && (forall i :: 0 <= i < |bytes| && !Inside(extents, i) ==> bytes[i] == 0)
  }

  datatype NextData = Run(data: nat, hole: nat) | NoMore | Error

  /** The next run of data at or after `offset`, up to the hole that ends it. */
  ghost predicate IsRun(alloc: seq<bool>, offset: nat, data: nat, hole: nat)
    ensures IsRun(alloc, offset, data, hole) ==> offset <= data < hole <= |alloc|
  {
    offset < |alloc| && data == Next(alloc, offset, true) < |alloc| && hole == Next(alloc, data, false)
  }

  ghost predicate NoneFrom(alloc: seq<bool>, offset: nat)
    ensures offset >= |alloc| ==> NoneFrom(alloc, offset)
  {
    forall i :: offset <= i < |alloc| ==> !alloc[i]
  }

  /** One seek for data and, from there, one for the hole that ends it. */
  method SeekRun(alloc: seq<bool>, offset: nat, faults: Faults) returns (r: NextData)
    requires offset < |alloc|
    ensures r.Run? ==> IsRun(alloc, offset, r.data, r.hole)
    ensures r.NoMore? ==> NoneFrom(alloc, offset)
    ensures (forall k :: faults(k) == NoFault) ==> !r.Error?
  {
    var data := SeekData(alloc, offset, faults);
    if data == NotFound { return NoMore; }
    if !data.Found? { return Error; }
    var hole := SeekHole(alloc, data.at, faults);
    if !hole.Found? { return Error; }
    return Run(data.at, hole.at);
  }

  /** Extents found up to `offset`, which is the start, a hole or the end. */
  ghost predicate FoundUpTo(extents: seq<Extent>, alloc: seq<bool>, offset: nat)
    ensures FoundUpTo(extents, alloc, offset) ==> offset <= |alloc|
  {
    && offset <= |alloc|
    && (0 < offset < |alloc| ==> !alloc[offset])
    && Ordered(extents, offset)
    && (forall j, k :: 0 <= j < k < |extents| ==> End(extents[j]) < extents[k].offset)
    && (forall i :: 0 <= i < offset ==> (alloc[i] <==> Inside(extents, i)))
  }

  lemma ExtendExtents(extents: seq<Extent>, alloc: seq<bool>, offset: nat, data: nat, hole: nat)
    requires FoundUpTo(extents, alloc, offset) && IsRun(alloc, offset, data, hole)
    ensures FoundUpTo(extents + [Extent(data, hole - data)], alloc, hole)
  {
    var e := Extent(data, hole - data);
    var longer := extents + [e];
    forall i | 0 <= i < hole ensures alloc[i] <==> Inside(longer, i) {
      if Inside(extents, i) {
        var k :| 0 <= k < |extents| && extents[k].offset <= i < End(extents[k]);
        assert longer[k] == extents[k];
      }
      if data <= i { assert longer[|extents|] == e; }
      if Inside(longer, i) && i < data {
        var k :| 0 <= k < |longer| && longer[k].offset <= i < End(longer[k]);
        assert longer[k] == extents[k];
      }
    }
  }

  lemma FoundAll(extents: seq<Extent>, alloc: seq<bool>, offset: nat)
    requires FoundUpTo(extents, alloc, offset) && NoneFrom(alloc, offset)
    ensures DataExtents(extents, alloc)
  {
  }

  method SeekDataExtents(f: File, faults: Faults) returns (extents: Option<seq<Extent>>)
    requires Sound(f)
    ensures extents.Some? ==> DataExtents(extents.value, f.alloc)
    ensures (forall k :: faults(k) == NoFault) ==> extents.Some?
  {
    var len := |f.bytes|;
    var list := [];
    var offset := 0;
    assert FoundUpTo([], f.alloc, 0);
    hide FoundUpTo, DataExtents, IsRun, NoneFrom;
    while offset < len
      invariant FoundUpTo(list, f.alloc, offset)
      invariant offset <= len
      decreases len - offset
    {
      var found := SeekRun(f.alloc, offset, faults);
      if found == Error { return None; }
      if found == NoMore { break; }
      ExtendExtents(list, f.alloc, offset, found.data, found.hole);
      list := list + [Extent(found.data, found.hole - found.data)];
      offset := found.hole;
    }
    FoundAll(list, f.alloc, offset);
    return Some(list);
  }

  const GIB := 1024 * 1024 * 1024

  predicate LargeSparseTransfer(len: nat, blockBytes: nat) { len >= 8 * GIB && blockBytes <= len / 2 }

  predicate SuspiciousDenseReport(len: nat, blockBytes: nat, extents: seq<Extent>) {
    LargeSparseTransfer(len, blockBytes) && extents == [Extent(0, len)]
  }

  /** What a push reads: the data extents, or the whole file where they cannot be
      found; a large sparse image is refused rather than expanded. */
  method FileExtents(f: File, blockBytes: nat, faults: Faults) returns (extents: Option<seq<Extent>>)
    requires Sound(f)
    ensures extents.Some? ==> CoversData(extents.value, f.bytes)
    ensures !LargeSparseTransfer(|f.bytes|, blockBytes) ==> extents.Some?
    ensures (forall k :: faults(k) == NoFault) ==>
              DataExtents(if extents.Some? then extents.value else [Extent(0, |f.bytes|)], f.alloc)
    ensures LargeSparseTransfer(|f.bytes|, blockBytes) && extents.Some? ==>
              DataExtents(extents.value, f.alloc) && extents.value != [Extent(0, |f.bytes|)]
    // a file is large and sparse from 8 GiB on, with at most half of it allocated
    ensures extents.None? ==> |f.bytes| >= 8589934592 && 2 * blockBytes <= |f.bytes|
    ensures |f.bytes| >= 8589934592 && 2 * blockBytes <= |f.bytes| && extents.Some? ==> extents.value != [Extent(0, |f.bytes|)]
  {
    var len := |f.bytes|;
    if len == 0 { return Some([]); }
    var found := SeekDataExtents(f, faults);
    if found.Some? {
      if SuspiciousDenseReport(len, blockBytes, found.value) { return None; }
      return found;
    }
    if LargeSparseTransfer(len, blockBytes) { return None; }
    ghost var whole := [Extent(0, len)];
    assert forall i :: 0 <= i < len ==> Inside(whole, i) by {
      assert whole[0] == Extent(0, len);
    }
    return Some([Extent(0, len)]);
  }

  // ------------------------------------------------------------ files written in place

  /** `now` is `was` with `data` written over it at `at`. */
  ghost predicate WrittenOver<T(!new)>(was: seq<T>, now: seq<T>, at: nat, data: seq<T>) {
    && |now| == |was| && at + |data| <= |was|
    && (forall i :: 0 <= i < |was| ==> now[i] == if at <= i < at + |data| then data[i - at] else was[i])
  }

  function Over<T>(was: seq<T>, at: nat, data: seq<T>): (now: seq<T>)
    requires at + |data| <= |was|
  {
    was[..at] + data + was[at + |data|..]
  }

  function Repeat<T>(n: nat, x: T): (r: seq<T>)
    ensures |r| == n && forall i :: 0 <= i < n ==> r[i] == x
  {
    seq(n, _ => x)
  }

  class Image {
    var bytes: seq<Byte>
    var alloc: seq<bool>

    ghost predicate Valid()
      reads this
    {
      Sound(File(bytes, alloc))
    }

    /** A file just created and set to a length is one hole. */
    constructor (len: nat)
      ensures Valid() && bytes == Repeat<Byte>(len, 0) && alloc == Repeat(len, false)
    {
      bytes, alloc := Repeat<Byte>(len, 0), Repeat(len, false);
    }

    method WriteAt(at: nat, data: seq<Byte>)
      requires Valid() && at + |data| <= |bytes|
      modifies this
      ensures Valid()
      ensures WrittenOver(old(bytes), bytes, at, data)
      ensures WrittenOver(old(alloc), alloc, at, Repeat(|data|, true))
    {
      bytes, alloc := Over(bytes, at, data), Over(alloc, at, Repeat(|data|, true));
    }

    /** Deallocates a range, which then reads as zero; not every host can. */
    method PunchHole(at: nat, len: nat, works: bool) returns (done: bool)
      requires Valid() && at + len <= |bytes|
      modifies this
      ensures Valid() && done == works
      ensures if done then WrittenOver(old(bytes), bytes, at, Repeat(len, 0)) else bytes == old(bytes)
      ensures if done then WrittenOver(old(alloc), alloc, at, Repeat(len, false)) else alloc == old(alloc)
    {
      if works {
        bytes, alloc := Over(bytes, at, Repeat(len, 0)), Over(alloc, at, Repeat(len, false));
      }
      return works;
    }

    // ---------------------------------------------------------- punching holes

    /** Scans a range in chunks and punches those that are all zero. */
    method ScanRange(start: nat, end: nat, host: Host)
      requires Valid() && start <= end <= |bytes|
      modifies this
      ensures Valid() && bytes == old(bytes) && Thinner(old(alloc), alloc)
      ensures host.blockSize > 0 && (forall k :: host.punches(k)) ==>
                Scanned(bytes, old(alloc), alloc, start, end, host.blockSize)
    {
      var offset := start;
      assert Scanned(bytes, alloc, alloc, start, start, host.blockSize);
      hide WrittenOver, Repeat, Sound, Thinner, Scanned, AllZero;
      while offset < end
        invariant start <= offset <= end <= |bytes|
        invariant Valid() && bytes == old(bytes) && Thinner(old(alloc), alloc)
        invariant Scanned(bytes, old(alloc), alloc, start, offset, host.blockSize)
        decreases end - offset
      {
        var n := ReadCount(host, offset, end);
        if n == 0 { break; }
        ghost var was, mid := bytes, alloc;
        if AllZero(bytes[offset..offset + n]) {
          var done := PunchHole(offset, n, host.punches(offset));
          if !done { break; }
        }
        ScanChunk(was, old(alloc), mid, bytes, alloc, start, offset, n, host.blockSize);
        offset := offset + n;
      }
    }

    /** By extents where the host can seek; None where it cannot, or on an error. */
    method ScanExtents(host: Host) returns (scanned: Option<bool>)
      requires Valid()
      modifies this
      ensures Valid() && bytes == old(bytes) && Thinner(old(alloc), alloc)
      ensures scanned == Some(true) && host.blockSize > 0 && (forall k :: host.punches(k)) ==>
                Tight(bytes, alloc, 0, |bytes|, host.blockSize)
      ensures (forall k :: host.seeks(k) != OtherError) ==> scanned.Some?
    {
      var size := |bytes|;
      var offset := 0;
      while offset < size
        invariant 0 <= offset <= size
        invariant Valid() && bytes == old(bytes) && Thinner(old(alloc), alloc)
        invariant host.blockSize > 0 && (forall k :: host.punches(k)) ==>
                    Tight(bytes, alloc, 0, offset, host.blockSize)
        decreases size - offset
      {
        var data := SeekData(alloc, offset, host.seeks);
        match data {
          case Found(_) =>
          case NotFound => return Some(true);
          case Unsupported => return Some(false);
          case Failed => return None;
        }
        var hole := SeekHole(alloc, data.at, host.seeks);
        match hole {
          case Found(_) =>
          case NotFound => return Some(false);
          case Unsupported => return Some(false);
          case Failed => return None;
        }
        ScanRange(data.at, if hole.at <= size then hole.at else size, host);
        offset := if hole.at > data.at + 1 then hole.at else data.at + 1;
      }
      return Some(true);
    }

    /** Hole punching never changes a byte read back, and only gives space up.
        Where punching works, what stays allocated is within a block of data. */
    method PunchHoles(host: Host) returns (ok: bool)
      requires Valid()
      modifies this
      ensures Valid() && bytes == old(bytes) && Thinner(old(alloc), alloc)
      ensures ok && host.blockSize > 0 && (forall k :: host.punches(k)) ==>
                Tight(bytes, alloc, 0, |bytes|, host.blockSize)
      ensures (forall k :: host.seeks(k) != OtherError) ==> ok
    {
      var scanned := ScanExtents(host);
      if scanned == None { return false; }
      if scanned == Some(true) { return true; }
      // the fallback reads the whole file in chunks, exactly as one range
      ScanRange(0, |bytes|, host);
      return true;
    }
  }

  /** What the host does: how much a read returns, which punches and seeks work. */
  datatype Host = Host(blockSize: nat, returned: nat -> nat, punches: nat -> bool, seeks: Faults)

  /** A read returns at least one byte unless there is no room for any. */
  function ReadCount(host: Host, offset: nat, end: nat): (n: nat)
    requires offset < end
    ensures n <= end - offset && n <= host.blockSize && (host.blockSize > 0 ==> n > 0)
  {
    var most := if end - offset < host.blockSize then end - offset else host.blockSize;
    if 1 <= host.returned(offset) <= most then host.returned(offset) else most
  }

  predicate AllZero(bytes: seq<Byte>) { forall i :: 0 <= i < |bytes| ==> bytes[i] == 0 }

  ghost predicate Thinner(was: seq<bool>, alloc: seq<bool>) {
    |was| == |alloc| && forall i :: 0 <= i < |was| && alloc[i] ==> was[i]
  }

  ghost predicate NearData(bytes: seq<Byte>, i: int, distance: nat) {
    exists j :: 0 <= j < |bytes| && bytes[j] != 0 && i - distance < j < i + distance
  }

  ghost predicate Tight(bytes: seq<Byte>, alloc: seq<bool>, start: nat, end: nat, distance: nat)
    requires |alloc| == |bytes| && end <= |bytes|
  {
    forall i :: start <= i < end && alloc[i] ==> NearData(bytes, i, distance)
  }

  /** A range scanned: nothing else changed, and what stays allocated is near data. */
  ghost predicate Scanned(bytes: seq<Byte>, was: seq<bool>, alloc: seq<bool>, start: nat, end: nat, distance: nat) {
    && |was| == |alloc| == |bytes| && end <= |bytes|
    && (forall i :: 0 <= i < |bytes| && !(start <= i < end) ==> alloc[i] == was[i])
    && Tight(bytes, alloc, start, end, distance)
  }

  /** One chunk more: punched if it is all zero, and near data if it is not. */
  lemma ScanChunk(bytes: seq<Byte>, was: seq<bool>, mid: seq<bool>, now: seq<Byte>, alloc: seq<bool>,
                  start: nat, offset: nat, n: nat, distance: nat)
    requires Thinner(was, mid) && Scanned(bytes, was, mid, start, offset, distance)
    requires start <= offset && offset + n <= |bytes| && n <= distance
    requires if AllZero(bytes[offset..offset + n]) then
               WrittenOver(bytes, now, offset, Repeat(n, 0)) && WrittenOver(mid, alloc, offset, Repeat(n, false))
             else now == bytes && alloc == mid
    ensures now == bytes && Thinner(was, alloc) && Scanned(bytes, was, alloc, start, offset + n, distance)
  {
    var chunk := bytes[offset..offset + n];
    if AllZero(chunk) {
      assert forall i :: offset <= i < offset + n ==> bytes[i] == chunk[i - offset];
      assert now == bytes;
    } else {
      var j :| 0 <= j < |chunk| && chunk[j] != 0;
      assert bytes[offset + j] != 0;
    }
  }

  // ------------------------------------------------------------ copying extent by extent

  const COPY_BUFFER := 1024 * 1024

  /** `was` with the bytes of `src` from `start` to `at` copied over it, and allocated. */
  ghost predicate RangeCopied(src: seq<Byte>, was: File, bytes: seq<Byte>, alloc: seq<bool>, start: nat, at: nat)
    ensures RangeCopied(src, was, bytes, alloc, start, at) ==> |bytes| == |src|
  {
    && at <= |src| == |was.bytes| == |was.alloc| == |bytes| == |alloc|
    && (forall i :: 0 <= i < |src| ==> bytes[i] == if start <= i < at then src[i] else was.bytes[i])
    && (forall i :: 0 <= i < |src| ==> alloc[i] == (start <= i < at || was.alloc[i]))
  }

  lemma CopyChunk(src: seq<Byte>, was: File, mid: File, bytes: seq<Byte>, alloc: seq<bool>, start: nat, at: nat, limit: nat)
    requires RangeCopied(src, was, mid.bytes, mid.alloc, start, at) && start <= at && at + limit <= |src|
    requires WrittenOver(mid.bytes, bytes, at, src[at..at + limit]) && WrittenOver(mid.alloc, alloc, at, Repeat(limit, true))
    ensures RangeCopied(src, was, bytes, alloc, start, at + limit)
  {
  }

  method CopyRange(src: File, dst: Image, start: nat, end: nat)
    requires Sound(src) && dst.Valid() && start <= end <= |src.bytes| == |dst.bytes|
    modifies dst
    ensures dst.Valid()
    ensures RangeCopied(src.bytes, File(old(dst.bytes), old(dst.alloc)), dst.bytes, dst.alloc, start, end)
  {
    ghost var was := File(dst.bytes, dst.alloc);
    assert RangeCopied(src.bytes, was, dst.bytes, dst.alloc, start, start);
    hide RangeCopied, WrittenOver, Repeat, Sound;
    var at, remaining := start, end - start;    // both files are positioned at `at`
    while remaining > 0
      invariant 0 <= remaining && at + remaining == end
      invariant dst.Valid() && RangeCopied(src.bytes, was, dst.bytes, dst.alloc, start, at)
      decreases remaining
    {
      var limit := if remaining < COPY_BUFFER then remaining else COPY_BUFFER;
      ghost var mid := File(dst.bytes, dst.alloc);
      dst.WriteAt(at, src.bytes[at..at + limit]);
      CopyChunk(src.bytes, was, mid, dst.bytes, dst.alloc, start, at, limit);
      at, remaining := at + limit, remaining - limit;
    }
  }

  /** What the copy holds once everything before `offset` is copied. */
  ghost predicate CopiedUpTo(src: File, bytes: seq<Byte>, alloc: seq<bool>, offset: nat)
    ensures CopiedUpTo(src, bytes, alloc, offset) ==> |bytes| == |src.bytes|
  {
    && |bytes| == |alloc| == |src.bytes| == |src.alloc| && offset <= |bytes|
    && (forall i :: 0 <= i < |bytes| ==> bytes[i] == if i < offset then src.bytes[i] else 0)
    && (forall i :: 0 <= i < |bytes| ==> alloc[i] == (i < offset && src.alloc[i]))
  }

  lemma CopyExtent(src: File, was: File, bytes: seq<Byte>, alloc: seq<bool>, offset: nat, data: nat, hole: nat)
    requires Sound(src) && CopiedUpTo(src, was.bytes, was.alloc, offset) && IsRun(src.alloc, offset, data, hole)
    requires RangeCopied(src.bytes, was, bytes, alloc, data, hole)
    ensures CopiedUpTo(src, bytes, alloc, hole)
  {
  }

  lemma CopiedAll(src: File, bytes: seq<Byte>, alloc: seq<bool>, offset: nat)
    requires Sound(src) && CopiedUpTo(src, bytes, alloc, offset) && NoneFrom(src.alloc, offset)
    ensures bytes == src.bytes && alloc == src.alloc
  {
  }

  /** The extent-by-extent copy has the bytes and the holes of its source. */
  method CopySparseExtents(src: File, faults: Faults) returns (dst: Option<Image>)
    requires Sound(src)
    ensures dst.Some? ==>
              fresh(dst.value) && dst.value.Valid() && dst.value.bytes == src.bytes && dst.value.alloc == src.alloc
    ensures (forall k :: faults(k) == NoFault) ==> dst.Some?
  {
    var len := |src.bytes|;
    var image := new Image(len);
    var offset := 0;
    assert CopiedUpTo(src, image.bytes, image.alloc, 0);
    hide CopiedUpTo, RangeCopied, Sound, IsRun, NoneFrom;
    while offset < len
      invariant fresh(image) && image.Valid() && offset <= len
      invariant CopiedUpTo(src, image.bytes, image.alloc, offset)
      decreases len - offset
    {
      var found := SeekRun(src.alloc, offset, faults);
      if found == Error { return None; }
      if found == NoMore { break; }
      ghost var was := File(image.bytes, image.alloc);
      CopyRange(src, image, found.data, found.hole);
      CopyExtent(src, was, image.bytes, image.alloc, offset, found.data, found.hole);
      offset := found.hole;
    }
    CopiedAll(src, image.bytes, image.alloc, offset);
    return Some(image);
  }

  const LARGE_SPARSE_IMAGE_BYTES := 8 * GIB
  const SPARSENESS_SLACK_BYTES := 64 * 1024 * 1024

  predicate KeptSparseness(len: nat, sourceAllocated: nat, copyAllocated: nat) {
    len < LARGE_SPARSE_IMAGE_BYTES || copyAllocated <= sourceAllocated + SPARSENESS_SLACK_BYTES
  }

  function AllocatedBytes(alloc: seq<bool>): nat {
    if alloc == [] then 0
    else AllocatedBytes(alloc[..|alloc| - 1]) + if alloc[|alloc| - 1] then 1 else 0
  }

  lemma {:induction false} AllocatedCounts(alloc: seq<bool>)
    ensures AllocatedBytes(alloc) == |set i | 0 <= i < |alloc| && alloc[i]|
    decreases |alloc|
  {
    if alloc != [] {
      var n := |alloc| - 1;
      var init := alloc[..n];
      AllocatedCounts(init);
      var all, before := set i | 0 <= i < |alloc| && alloc[i], set i | 0 <= i < |init| && init[i];
      assert all == if alloc[n] then before + {n} else before;
    }
  }

  /** From 8 GiB on, a copy may take 64 MiB more on the host than its source. */
  lemma SparsenessIsKept(src: File, dst: File)
    ensures KeptSparseness(|src.bytes|, AllocatedBytes(src.alloc), AllocatedBytes(dst.alloc)) <==>
              |src.bytes| < 8589934592 || AllocatedBytes(dst.alloc) - AllocatedBytes(src.alloc) <= 67108864
  {
  }

  /** A copy of either kind equals its source; one of a large image never trips the
      density check, however full the source is. */
  method CopyWithoutDenseLargeImage(src: File, faults: Faults, plain: Image) returns (dst: Option<Image>)
    requires Sound(src)
    requires plain.Valid() && plain.bytes == src.bytes    // what a plain copy of the file would give
    ensures dst.Some? ==> dst.value.Valid() && dst.value.bytes == src.bytes
    ensures dst.Some? && |src.bytes| >= 8589934592 ==> dst.value.alloc == src.alloc
    ensures dst.None? ==> |src.bytes| >= 8589934592 && exists k :: faults(k) != NoFault
  {
    if |src.bytes| < LARGE_SPARSE_IMAGE_BYTES {
      dst := Some(plain);
    } else {
      dst := CopySparseExtents(src, faults);
      if dst == None { return; }
    }
    if !KeptSparseness(|src.bytes|, AllocatedBytes(src.alloc), AllocatedBytes(dst.value.alloc)) {
      assert false;
      return None;
    }
  }
}
