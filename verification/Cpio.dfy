/**
  The initramfs archive (src/initramfs.rs:31-86) against a reader of the "newc"
  format as the Linux "initramfs buffer format" document gives it: a 110-byte
  header of ASCII fields, the name with its NUL, the data, each padded to four
  bytes, up to an entry called TRAILER!!!.
 */
module Cpio {
  import opened Layout
  import opened Sparse

  datatype Entry = Entry(name: seq<Byte>, mode: nat, data: seq<Byte>)

  const U32_LIMIT := 0x1_0000_0000

  /** What eight digits can say. */
  ghost predicate Small(e: Entry) { |e.name| + 1 < U32_LIMIT && e.mode < U32_LIMIT && |e.data| < U32_LIMIT }

  ghost predicate Encodable(e: Entry) { 0 !in e.name && Small(e) }

  // ------------------------------------------------------------ eight hexadecimal digits

  function DigitByte(n: nat): Byte
    requires n < 16
  {
    if n < 10 then 48 + n else 55 + n
  }

  function DigitValue(b: Byte): Option<nat> {
    if 48 <= b <= 57 then Some(b - 48)
    else if 65 <= b <= 70 then Some(b - 55)
    else if 97 <= b <= 102 then Some(b - 87)
    else None
  }

  function Power16(k: nat): nat { if k == 0 then 1 else 16 * Power16(k - 1) }

  function HexDigits(n: nat, k: nat): (digits: seq<Byte>)
    ensures |digits| == k
  {
    if k == 0 then [] else HexDigits(n / 16, k - 1) + [DigitByte(n % 16)]
  }

  function ParseHex(digits: seq<Byte>): Option<nat> {
    if digits == [] then Some(0)
    else
      match (ParseHex(digits[..|digits| - 1]), DigitValue(digits[|digits| - 1]))
      case (Some(high), Some(low)) => Some(16 * high + low)
      case _ => None
  }

  lemma {:induction false} HexRoundTrip(n: nat, k: nat)
    requires n < Power16(k)
    ensures ParseHex(HexDigits(n, k)) == Some(n)
  {
    if k > 0 {
      HexRoundTrip(n / 16, k - 1);
      assert HexDigits(n, k)[..k - 1] == HexDigits(n / 16, k - 1);
    }
  }

  lemma Hex8RoundTrip(n: nat)
    requires n < U32_LIMIT
    ensures ParseHex(HexDigits(n, 8)) == Some(n)
  {
    assert Power16(8) == U32_LIMIT by {
      assert Power16(4) == 65536;
      assert Power16(6) == 256 * Power16(4);
      assert Power16(8) == 256 * Power16(6);
    }
    HexRoundTrip(n, 8);
  }

  // ------------------------------------------------------------ the format

  const MAGIC: seq<Byte> := [48, 55, 48, 55, 48, 49]
  const TRAILER: seq<Byte> := [84, 82, 65, 73, 76, 69, 82, 33, 33, 33]
  const HEADER_LEN := 110

  /** At least eight digits, and more for a number that needs them. */
  function Width(n: nat): nat { if n < U32_LIMIT then 8 else 1 + Width(n / 16) }

  ghost predicate AllSmall(fields: seq<nat>) { forall k :: 0 <= k < |fields| ==> fields[k] < U32_LIMIT }

  function FieldsBytes(fields: seq<nat>): (bytes: seq<Byte>)
    ensures AllSmall(fields) ==> |bytes| == 8 * |fields|
  {
    if fields == [] then []
    else
      var last := fields[|fields| - 1];
      FieldsBytes(fields[..|fields| - 1]) + HexDigits(last, Width(last))
  }

  /** ino, mode, uid, gid, nlink, mtime, filesize, devmajor, devminor, rdevmajor, rdevminor, namesize, check. */
  function Fields(e: Entry): seq<nat> { [1, e.mode, 0, 0, 1, 0, |e.data|, 0, 0, 0, 0, |e.name| + 1, 0] }

  function Padding(len: nat): (n: nat)
    ensures n < 4 && (len + n) % 4 == 0
  {
    if len % 4 == 0 then 0 else 4 - len % 4
  }

  function Padded(bytes: seq<Byte>): (r: seq<Byte>)
    ensures |r| == |bytes| + Padding(|bytes|) && |r| % 4 == 0 && r[..|bytes|] == bytes
  {
    bytes + Repeat<Byte>(Padding(|bytes|), 0)
  }

  function Head(e: Entry): (bytes: seq<Byte>)
    ensures Small(e) ==> |bytes| == HEADER_LEN + |e.name| + 1
  {
    MAGIC + FieldsBytes(Fields(e)) + e.name + [0]
  }

  function EntryBytes(e: Entry): (bytes: seq<Byte>)
    ensures |bytes| % 4 == 0
  {
    Padded(Head(e)) + Padded(e.data)
  }

  ghost function EntriesBytes(entries: seq<Entry>): seq<Byte> {
    if entries == [] then [] else EntryBytes(entries[0]) + EntriesBytes(entries[1..])
  }

  /** Wherever a list of entries ends, the next one starts at a multiple of four. */
  lemma {:induction false} EntriesAligned(entries: seq<Entry>)
    ensures |EntriesBytes(entries)| % 4 == 0
    decreases |entries|
  {
    hide EntryBytes;
    if entries != [] {
      EntriesAligned(entries[1..]);
      FourAndFour(|EntryBytes(entries[0])|, |EntriesBytes(entries[1..])|);
    }
  }

  lemma FourAndFour(m: nat, n: nat)
    requires m % 4 == 0 && n % 4 == 0
    ensures (m + n) % 4 == 0
  {
  }

  lemma Up512(n: nat)
    ensures (n + (512 - n % 512)) % 512 == 0
  {
    assert n + (512 - n % 512) == 512 * (n / 512 + 1);
  }

  // ------------------------------------------------------------ the reader

  function Field(bytes: seq<Byte>, k: nat): Option<nat>
    requires k < 13 && |bytes| >= HEADER_LEN
  {
    ParseHex(bytes[6 + 8 * k..14 + 8 * k])
  }

  /** The entry at the start of `bytes`, which is at a multiple of four in the
      archive, and where the next one starts. */
  function ReadEntry(bytes: seq<Byte>): (r: Option<(Entry, nat)>)
    ensures r.Some? ==> HEADER_LEN <= r.value.1 <= |bytes|
  {
    if |bytes| < HEADER_LEN || bytes[..6] != MAGIC then None
    else
      match (Field(bytes, 1), Field(bytes, 6), Field(bytes, 11))
      case (Some(mode), Some(size), Some(namesize)) =>
        var start := HEADER_LEN + namesize + Padding(HEADER_LEN + namesize);
        var next := start + size + Padding(size);
        if namesize == 0 || next > |bytes| || bytes[HEADER_LEN + namesize - 1] != 0 then None
        else
          var name := bytes[HEADER_LEN..HEADER_LEN + namesize - 1];
          if 0 in name then None else Some((Entry(name, mode, bytes[start..start + size]), next))
      case _ => None
  }

  ghost function ReadAll(bytes: seq<Byte>): Option<seq<Entry>>
    decreases |bytes|
  {
    match ReadEntry(bytes)
    case None => None
    case Some((e, next)) =>
      if e.name == TRAILER then Some([])
      else
        match ReadAll(bytes[next..])
        case None => None
        case Some(rest) => Some([e] + rest)
  }

  lemma {:induction false} FieldOf(fields: seq<nat>, k: nat)
    requires k < |fields| && AllSmall(fields)
    ensures |FieldsBytes(fields)| == 8 * |fields|
    ensures FieldsBytes(fields)[8 * k..8 * k + 8] == HexDigits(fields[k], 8)
    decreases |fields|
  {
    hide HexDigits;
    var init := fields[..|fields| - 1];
    if k < |init| {
      FieldOf(init, k);
      assert FieldsBytes(fields)[8 * k..8 * k + 8] == FieldsBytes(init)[8 * k..8 * k + 8];
    }
  }

  lemma HeaderField(e: Entry, rest: seq<Byte>, k: nat)
    requires k < 13 && Small(e)
    ensures |Padded(Head(e)) + rest| >= HEADER_LEN && Field(Padded(Head(e)) + rest, k) == Some(Fields(e)[k])
  {
    hide ParseHex, HexDigits, FieldsBytes;
    var bytes, fields := Padded(Head(e)) + rest, FieldsBytes(Fields(e));
    FieldOf(Fields(e), k);
    assert bytes[6 + 8 * k..14 + 8 * k] == fields[8 * k..8 * k + 8];
    Hex8RoundTrip(Fields(e)[k]);
  }

  /** Every field of a header, the ones the reader skips as well: inode 1, one link, owned by
      root, no time, no device, no checksum. */
  lemma HeaderFields(e: Entry)
    requires Small(e)
    ensures var b := EntryBytes(e);
            && |b| >= 110 && b[..6] == [48, 55, 48, 55, 48, 49]
            && forall k :: 0 <= k < 13 ==>
                 ParseHex(b[6 + 8 * k..14 + 8 * k]) == Some([1, e.mode, 0, 0, 1, 0, |e.data|, 0, 0, 0, 0, |e.name| + 1, 0][k])
  {
    hide ParseHex, FieldsBytes, Padding;
    forall k: nat | k < 13 ensures Field(EntryBytes(e), k) == Some(Fields(e)[k]) {
      HeaderField(e, Padded(e.data), k);
    }
  }

  /** Reading an entry gives it back, whatever follows it. */
  lemma EntryRoundTrip(e: Entry, rest: seq<Byte>)
    requires Encodable(e)
    ensures ReadEntry(EntryBytes(e) + rest) == Some((e, |EntryBytes(e)|))
  {
    hide Field, FieldsBytes, HexDigits, ParseHex, Padding, Padded;
    var bytes, tail := EntryBytes(e) + rest, Padded(e.data) + rest;
    assert bytes == Padded(Head(e)) + tail;
    HeaderField(e, tail, 1);
    HeaderField(e, tail, 6);
    HeaderField(e, tail, 11);
    var head, start := Head(e), |Padded(Head(e))|;
    assert head == bytes[..|head|] by { assert head == Padded(head)[..|head|]; }
    assert bytes[..6] == MAGIC by { assert head[..6] == MAGIC; }
    assert bytes[HEADER_LEN..|head| - 1] == e.name by { assert head[HEADER_LEN..|head| - 1] == e.name; }
    assert bytes[|head| - 1] == head[|head| - 1] == 0;
    assert bytes[start..start + |e.data|] == e.data by {
      assert bytes[start..start + |e.data|] == Padded(e.data)[..|e.data|];
    }
  }

  /** The reader inverts the writer on every list of entries, whatever padding
      follows the trailer. */
  lemma {:induction false} ArchiveRoundTrip(entries: seq<Entry>, padding: seq<Byte>)
    requires forall k :: 0 <= k < |entries| ==> Encodable(entries[k]) && entries[k].name != TRAILER
    ensures ReadAll(EntriesBytes(entries + [Entry(TRAILER, 0, [])]) + padding) == Some(entries)
    decreases |entries|
  {
    hide ReadEntry, EntryBytes;
    var last := Entry(TRAILER, 0, []);
    var all := entries + [last];
    var bytes := EntriesBytes(all) + padding;
    var rest := EntriesBytes(all[1..]) + padding;
    assert bytes == EntryBytes(all[0]) + rest;
    EntryRoundTrip(all[0], rest);
    if entries != [] {
      assert all[1..] == entries[1..] + [last];
      ArchiveRoundTrip(entries[1..], padding);
      assert bytes[|EntryBytes(all[0])|..] == rest;
      assert entries == [entries[0]] + entries[1..];
    }
  }

  // ------------------------------------------------------------ the writer

  class Archive {
    var buf: seq<Byte>

    /** Entries start and end at multiples of four. */
    ghost predicate Valid()
      reads this
    {
      |buf| % 4 == 0
    }

    constructor ()
      ensures Valid() && buf == []
    {
      buf := [];
    }

    method Pad4()
      modifies this
      ensures Valid() && buf == Padded(old(buf))
    {
      if |buf| % 4 != 0 { buf := buf + Repeat<Byte>(4 - |buf| % 4, 0); }
    }

    method AddEntry(name: seq<Byte>, data: seq<Byte>, mode: nat)
      requires Valid()
      modifies this
      ensures Valid() && buf == old(buf) + EntryBytes(Entry(name, mode, data))
    {
      hide FieldsBytes;
      ghost var e, was := Entry(name, mode, data), buf;
      var namesize := |name| + 1;
      buf := buf + MAGIC + FieldsBytes([1, mode, 0, 0, 1, 0, |data|, 0, 0, 0, 0, namesize, 0]);
      buf := buf + name;
      buf := buf + [0];
      assert buf == was + Head(e);
      Pad4();
      PadAfter(was, Head(e));
      ghost var head := buf;
      buf := buf + data;
      Pad4();
      PadAfter(head, data);
      assert buf == was + EntryBytes(e);
    }

    /** The least number of zero bytes that makes the length a multiple of 512. */
    method PadTo512()
      modifies this
      ensures |buf| % 512 == 0 && |old(buf)| <= |buf| < |old(buf)| + 512
      ensures buf[..|old(buf)|] == old(buf) && forall i :: |old(buf)| <= i < |buf| ==> buf[i] == 0
    {
      if |buf| % 512 != 0 {
        Up512(|buf|);
        buf := buf + Repeat<Byte>(512 - |buf| % 512, 0);
      }
    }
  }

  lemma PadAfter(was: seq<Byte>, bytes: seq<Byte>)
    requires |was| % 4 == 0
    ensures Padded(was + bytes) == was + Padded(bytes)
  {
    assert (|was| + |bytes|) % 4 == |bytes| % 4;
  }

  const INIT: seq<Byte> := [105, 110, 105, 116]
  const LNX_AGENT: seq<Byte> := [108, 110, 120, 45, 97, 103, 101, 110, 116]
  const LNXCTL: seq<Byte> := [108, 110, 120, 99, 116, 108]
  const EXECUTABLE := 0x81ED    // 0o100755

  /** The initramfs unpacks to the agent under its three names, and to nothing else. */
  method WriteAgent(agent: seq<Byte>) returns (file: seq<Byte>)
    ensures |file| % 512 == 0
    ensures |agent| < U32_LIMIT ==>
              ReadAll(file) == Some([Entry(INIT, EXECUTABLE, agent), Entry(LNX_AGENT, EXECUTABLE, agent), Entry(LNXCTL, EXECUTABLE, agent)])
  {
    hide EntryBytes, ReadAll, Padded;
    var archive := new Archive();
    archive.AddEntry(INIT, agent, EXECUTABLE);
    archive.AddEntry(LNX_AGENT, agent, EXECUTABLE);
    archive.AddEntry(LNXCTL, agent, EXECUTABLE);
    archive.AddEntry(TRAILER, [], 0);
    ghost var entries := [Entry(INIT, EXECUTABLE, agent), Entry(LNX_AGENT, EXECUTABLE, agent), Entry(LNXCTL, EXECUTABLE, agent)];
    FourEntries(entries[0], entries[1], entries[2], Entry(TRAILER, 0, []));
    ghost var body := archive.buf;
    assert entries + [Entry(TRAILER, 0, [])] == [entries[0], entries[1], entries[2], Entry(TRAILER, 0, [])];
    archive.PadTo512();
    ghost var padding := archive.buf[|body|..];
    assert archive.buf == body + padding;
    if |agent| < U32_LIMIT { ArchiveRoundTrip(entries, padding); }
    return archive.buf;
  }

  lemma FourEntries(a: Entry, b: Entry, c: Entry, d: Entry)
    ensures EntriesBytes([a, b, c, d]) == [] + EntryBytes(a) + EntryBytes(b) + EntryBytes(c) + EntryBytes(d)
  {
    hide EntryBytes;
    assert EntriesBytes([d]) == EntryBytes(d);
    assert [c, d][1..] == [d] && EntriesBytes([c, d]) == EntryBytes(c) + EntryBytes(d);
    assert [b, c, d][1..] == [c, d] && EntriesBytes([b, c, d]) == EntryBytes(b) + (EntryBytes(c) + EntryBytes(d));
    assert [a, b, c, d][1..] == [b, c, d];
  }
}
