/**
  The framed block stream of a push: a 32-byte digest, a little-endian 32-bit
  length and the payload, one frame after another (src/server.rs:2385-2427).
 */
module Frames {
  import opened Layout
  import opened Sparse
  import opened Hex

  const CAS_BLOCK_SIZE: nat := 64 * 1024

  datatype Frame = Frame(digest: Digest, raw: seq<Byte>)

  function LittleEndian(n: nat): (bytes: seq<Byte>)
    requires n < 0x1_0000_0000
    ensures |bytes| == 4
  {
    [n % 256, n / 256 % 256, n / 65536 % 256, n / 16777216]
  }

  function FromLittleEndian(bytes: seq<Byte>): nat
    requires |bytes| == 4
  {
    var b: seq<int> := bytes;
    b[0] + 256 * b[1] + 65536 * b[2] + 16777216 * b[3]
  }

  lemma LengthRoundTrip(n: nat)
    requires n < 0x1_0000_0000
    ensures FromLittleEndian(LittleEndian(n)) == n
  {
    var a := n / 256;
    var b := a / 256;
    var c := b / 256;
    assert n == 256 * a + n % 256 && a == 256 * b + a % 256 && b == 256 * c + b % 256;
    Quarters(n);
  }

  lemma Quarters(n: nat)
    ensures n / 65536 == n / 256 / 256 && n / 16777216 == n / 256 / 256 / 256
  {
  }

  function Encode(f: Frame): (bytes: seq<Byte>)
    requires |f.raw| <= CAS_BLOCK_SIZE
    ensures |bytes| == 36 + |f.raw|
  {
    f.digest + LittleEndian(|f.raw|) + f.raw
  }

  ghost predicate Fit(frames: seq<Frame>) { forall k :: 0 <= k < |frames| ==> |frames[k].raw| <= CAS_BLOCK_SIZE }

  ghost predicate NoneEmpty(frames: seq<Frame>) { forall k :: 0 <= k < |frames| ==> frames[k].raw != [] }

  ghost function EncodeAll(frames: seq<Frame>): seq<Byte>
    requires Fit(frames)
  {
    if frames == [] then [] else Encode(frames[0]) + EncodeAll(frames[1..])
  }

  /** What a reader makes of a stream: the frames it hands on, and whether it ended well.
      Fewer than 32 bytes where a frame would start end the stream quietly. */
  datatype Parsed = Parsed(frames: seq<Frame>, ok: bool)

  /** The payload length of a complete first frame. */
  function FirstLength(input: seq<Byte>): (len: Option<nat>)
    ensures len.Some? ==> 0 < len.value <= CAS_BLOCK_SIZE && 36 + len.value <= |input|
  {
    if |input| < 36 then None
    else
      var len := FromLittleEndian(input[32..36]);
      if len == 0 || len > CAS_BLOCK_SIZE || |input| < 36 + len then None else Some(len)
  }

  ghost function ParseAll(input: seq<Byte>): Parsed
    decreases |input|
  {
    if |input| < 32 then Parsed([], true)
    else
      match FirstLength(input)
      case None => Parsed([], false)
      case Some(len) =>
        var rest := ParseAll(input[36 + len..]);
        Parsed([Frame(input[..32], input[36..36 + len])] + rest.frames, rest.ok)
  }

  lemma FirstFrame(f: Frame, rest: seq<Byte>)
    requires |f.raw| <= CAS_BLOCK_SIZE
    ensures var input := Encode(f) + rest;
            if f.raw == [] then FirstLength(input) == None
            else
              && FirstLength(input) == Some(|f.raw|)
              && input[..32] == f.digest && input[36..36 + |f.raw|] == f.raw && input[36 + |f.raw|..] == rest
  {
    var input := Encode(f) + rest;
    assert input[..32] == f.digest;
    assert input[32..36] == LittleEndian(|f.raw|);
    LengthRoundTrip(|f.raw|);
    hide LittleEndian, FromLittleEndian;
  }

  /** Reading inverts writing exactly when no payload is empty, a stub of a frame
      at the end or not; the writer alone does not refuse an empty payload. */
  lemma {:induction false} StreamRoundTrip(frames: seq<Frame>, stub: seq<Byte>)
    requires Fit(frames) && |stub| < 32
    ensures ParseAll(EncodeAll(frames) + stub) == Parsed(frames, true) <==> NoneEmpty(frames)
    decreases |frames|
  {
    hide Encode, FirstLength;
    if frames == [] {
      assert EncodeAll(frames) + stub == stub;
    } else {
      var rest := EncodeAll(frames[1..]) + stub;
      StreamRoundTrip(frames[1..], stub);
      FirstFrame(frames[0], rest);
      assert EncodeAll(frames) + stub == Encode(frames[0]) + rest;
      assert frames == [frames[0]] + frames[1..];
      if ParseAll(EncodeAll(frames) + stub) == Parsed(frames, true) {
        assert frames[1..] == ParseAll(rest).frames;
      }
      assert NoneEmpty(frames) <==> frames[0].raw != [] && NoneEmpty(frames[1..]) by {
        assert forall k :: 0 < k < |frames| ==> frames[k] == frames[1..][k - 1];
      }
    }
  }

  lemma {:induction false} EncodeMore(frames: seq<Frame>, f: Frame)
    requires Fit(frames) && |f.raw| <= CAS_BLOCK_SIZE
    ensures EncodeAll(frames + [f]) == EncodeAll(frames) + Encode(f)
    decreases |frames|
  {
    if frames != [] {
      EncodeMore(frames[1..], f);
      assert (frames + [f])[1..] == frames[1..] + [f];
    }
  }

  /** One frame appended to a stream. */
  method WriteFrame(output: seq<Byte>, sha256: string, raw: seq<Byte>) returns (r: Option<seq<Byte>>)
    ensures r.Some? <==> ValidSha256Hex(sha256) && |raw| <= CAS_BLOCK_SIZE
    ensures r.Some? ==> r.value == output + Encode(Frame(BytesOf(sha256), raw))
    ensures r.Some? ==> var n, b: seq<int> := |output|, r.value;
                        && |b| == n + 36 + |raw| && b[n..n + 32] == BytesOf(sha256) && b[n + 36..] == raw
                        && |raw| == b[n + 32] + 256 * b[n + 33] + 65536 * b[n + 34] + 16777216 * b[n + 35] <= 65536
  {
    var digest := BytesFromHex(sha256);
    if digest == None || |raw| > CAS_BLOCK_SIZE { return None; }
    return Some(output + digest.value + LittleEndian(|raw|) + raw);
  }
}
