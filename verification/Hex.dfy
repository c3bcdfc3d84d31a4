/** Digests as hexadecimal text (src/server.rs:2434-2461). */
module Hex {
  import opened Layout
  import opened Sparse

  type Digest = d: seq<Byte> | |d| == 32 witness Repeat(32, 0)

  function DigitOf(n: nat): char
    requires n < 16
  {
    "0123456789abcdef"[n]
  }

  predicate IsHexDigit(c: char) { '0' <= c <= '9' || 'a' <= c <= 'f' || 'A' <= c <= 'F' }

  function ValueOf(c: char): (n: nat)
    requires IsHexDigit(c)
    ensures n < 16
  {
    if c <= '9' then c as int - '0' as int
    else if c <= 'F' then c as int - 'A' as int + 10
    else c as int - 'a' as int + 10
  }

  lemma DigitRoundTrip(n: nat)
    requires n < 16
    ensures IsHexDigit(DigitOf(n)) && ValueOf(DigitOf(n)) == n
  {
  }

  lemma ValueRoundTrip(c: char)
    requires IsHexDigit(c)
    ensures DigitOf(ValueOf(c)) == Lower(c)
  {
  }

  function Lower(c: char): char {
    if 'A' <= c <= 'F' then (c as int - 'A' as int + 'a' as int) as char else c
  }

  function Lowered(text: string): string { seq(|text|, i requires 0 <= i < |text| => Lower(text[i])) }

  predicate AllHexDigits(text: string) { forall i :: 0 <= i < |text| ==> IsHexDigit(text[i]) }

  /** Accepts digits of either case. */
  predicate ValidSha256Hex(text: string) { |text| == 64 && AllHexDigits(text) }

  function HexOf(bytes: seq<Byte>): (text: string)
    ensures |text| == 2 * |bytes| && AllHexDigits(text)
  {
    if bytes == [] then ""
    else
      var last := bytes[|bytes| - 1];
      HexOf(bytes[..|bytes| - 1]) + [DigitOf(last / 16), DigitOf(last % 16)]
  }

  function BytesOf(text: string): (bytes: seq<Byte>)
    requires AllHexDigits(text) && |text| % 2 == 0
    ensures |bytes| == |text| / 2
  {
    if text == "" then []
    else BytesOf(text[..|text| - 2]) + [16 * ValueOf(text[|text| - 2]) + ValueOf(text[|text| - 1])]
  }

  method HexFromBytes(bytes: seq<Byte>) returns (text: string)
    ensures text == HexOf(bytes)
    ensures |text| == 2 * |bytes|
    ensures forall k :: 0 <= k < |bytes| ==> text[2 * k] == "0123456789abcdef"[bytes[k] / 16]
    ensures forall k :: 0 <= k < |bytes| ==> text[2 * k + 1] == "0123456789abcdef"[bytes[k] % 16]
  {
    hide DigitOf;
    text := "";
    for i := 0 to |bytes|
      invariant text == HexOf(bytes[..i])
    {
      assert bytes[..i + 1][..i] == bytes[..i];
      text := text + [DigitOf(bytes[i] / 16), DigitOf(bytes[i] % 16)];
    }
    assert bytes[..|bytes|] == bytes;
    forall k: nat | k < |bytes|
      ensures text[2 * k] == "0123456789abcdef"[bytes[k] / 16] && text[2 * k + 1] == "0123456789abcdef"[bytes[k] % 16]
    {
      DigitsAt(bytes, k);
    }
  }

  lemma {:induction false} DigitsAt(bytes: seq<Byte>, k: nat)
    requires k < |bytes|
    ensures HexOf(bytes)[2 * k] == "0123456789abcdef"[bytes[k] / 16]
    ensures HexOf(bytes)[2 * k + 1] == "0123456789abcdef"[bytes[k] % 16]
  {
    hide AllHexDigits;
    var init := bytes[..|bytes| - 1];
    if k < |init| { DigitsAt(init, k); }
  }

  method BytesFromHex(text: string) returns (bytes: Option<seq<Byte>>)
    ensures bytes == if ValidSha256Hex(text) then Some(BytesOf(text)) else None
  {
    if !ValidSha256Hex(text) { return None; }
    var found := [];
    for i := 0 to 32
      invariant found == BytesOf(text[..2 * i])
    {
      assert text[..2 * (i + 1)][..2 * i] == text[..2 * i];
      found := found + [16 * ValueOf(text[2 * i]) + ValueOf(text[2 * i + 1])];
    }
    assert text[..64] == text;
    return Some(found);
  }

  lemma ByteRoundTrip(b: Byte)
    ensures IsHexDigit(DigitOf(b / 16)) && IsHexDigit(DigitOf(b % 16))
    ensures 16 * ValueOf(DigitOf(b / 16)) + ValueOf(DigitOf(b % 16)) == b
  {
    hide DigitOf, ValueOf, IsHexDigit;
    DigitRoundTrip(b / 16);
    DigitRoundTrip(b % 16);
  }

  lemma {:induction false} HexRoundTrip(bytes: seq<Byte>)
    ensures BytesOf(HexOf(bytes)) == bytes
  {
    hide DigitOf, ValueOf, IsHexDigit, AllHexDigits, BytesOf;
    if bytes == [] {
      NoDigits();
    } else {
      var init, last := bytes[..|bytes| - 1], bytes[|bytes| - 1];
      HexRoundTrip(init);
      ByteRoundTrip(last);
      TwoMore(HexOf(init), HexOf(bytes), DigitOf(last / 16), DigitOf(last % 16));
      assert bytes == init + [last];
    }
  }

  lemma NoDigits()
    ensures HexOf([]) == "" && BytesOf("") == []
  {
  }

  lemma TwoMore(text: string, more: string, x: char, y: char)
    requires AllHexDigits(text) && |text| % 2 == 0 && IsHexDigit(x) && IsHexDigit(y) && more == text + [x, y]
    ensures AllHexDigits(more) && |more| % 2 == 0 && BytesOf(more) == BytesOf(text) + [16 * ValueOf(x) + ValueOf(y)]
  {
    hide IsHexDigit, ValueOf, BytesOf;
    TwoMoreDigits(text, x, y);
    hide AllHexDigits;
    LastByte(more);
    TwoLess(text, more, x, y);
  }

  lemma TwoLess(text: string, more: string, x: char, y: char)
    requires more == text + [x, y]
    ensures |more| == |text| + 2 && more[..|more| - 2] == text && more[|more| - 2] == x && more[|more| - 1] == y
  {
  }

  lemma TwoMoreDigits(text: string, x: char, y: char)
    requires AllHexDigits(text) && IsHexDigit(x) && IsHexDigit(y)
    ensures AllHexDigits(text + [x, y])
  {
    hide IsHexDigit;
  }

  lemma LastByte(text: string)
    requires AllHexDigits(text) && |text| % 2 == 0 && |text| >= 2
    ensures AllHexDigits(text[..|text| - 2])
    ensures BytesOf(text) == BytesOf(text[..|text| - 2]) + [16 * ValueOf(text[|text| - 2]) + ValueOf(text[|text| - 1])]
  {
    hide IsHexDigit, ValueOf;
  }

  lemma LoweredLast(text: string)
    requires |text| >= 2
    ensures Lowered(text) == Lowered(text[..|text| - 2]) + [Lower(text[|text| - 2]), Lower(text[|text| - 1])]
  {
    hide Lower;
  }

  /** The other way the text comes back in lower case: that is the one name a block has. */
  lemma {:induction false} TextRoundTrip(text: string)
    requires AllHexDigits(text) && |text| % 2 == 0
    ensures HexOf(BytesOf(text)) == Lowered(text)
  {
    if text != "" {
      var init, x, y := text[..|text| - 2], text[|text| - 2], text[|text| - 1];
      TextRoundTrip(init);
      LoweredLast(text);
      ValueRoundTrip(x);
      ValueRoundTrip(y);
      var bytes := BytesOf(text);
      hide DigitOf, ValueOf, Lower, Lowered;
      assert bytes[..|bytes| - 1] == BytesOf(init);
      var last := bytes[|bytes| - 1];
      assert last / 16 == ValueOf(x) && last % 16 == ValueOf(y);
      hide IsHexDigit;
    }
  }

  lemma HexIsInjective(x: seq<Byte>, y: seq<Byte>)
    requires HexOf(x) == HexOf(y)
    ensures x == y
  {
    HexRoundTrip(x);
    HexRoundTrip(y);
  }
}
