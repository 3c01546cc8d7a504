/** Certificate fingerprints as text (crates/transport/src/config.rs). */
module Fingerprints {
  import opened Numbers

  const FINGERPRINT_BYTES := 32
  const HEX_LENGTH := 64

  function HexDigit(d: nat): char
    requires d < 16
  {
    if d < 10 then '0' + d as char else 'A' + (d - 10) as char
  }

  /** `{:02X}`. */
  function HexByte(b: u8): (text: string)
    ensures |text| == 2
  {
    [HexDigit(b / 16), HexDigit(b % 16)]
  }

  function HexNibble(c: char): Option<nat> {
    if '0' <= c <= '9' then Some((c - '0') as int)
    else if 'a' <= c <= 'f' then Some((c - 'a') as int + 10)
    else if 'A' <= c <= 'F' then Some((c - 'A') as int + 10)
    else None
  }

  predicate IsHex(c: char) {
    '0' <= c <= '9' || 'A' <= c <= 'F' || 'a' <= c <= 'f'
  }

  function Upper(c: char): char {
    if 'a' <= c <= 'f' then c - 'a' + 'A' else c
  }

  lemma DigitOfNibble(c: char)
    ensures HexNibble(c).Some? <==> IsHex(c)
    ensures IsHex(c) ==> HexNibble(c).value < 16 && HexDigit(HexNibble(c).value) == Upper(c)
  {
  }

  /** The byte that two hexadecimal digits stand for. */
  function ByteOf(a: char, b: char): Option<u8> {
    var high, low := HexNibble(a), HexNibble(b);
    DigitOfNibble(a);
    DigitOfNibble(b);
    if high.None? || low.None? then None else Some(16 * high.value + low.value)
  }

  lemma ByteOfHexByte(b: u8)
    ensures ByteOf(HexByte(b)[0], HexByte(b)[1]) == Some(b)
    ensures forall c <- HexByte(b) :: IsHex(c) && Upper(c) == c
  {
  }

  lemma HexByteOfPair(a: char, b: char)
    ensures ByteOf(a, b).Some? <==> IsHex(a) && IsHex(b)
    ensures ByteOf(a, b).Some? ==> HexByte(ByteOf(a, b).value) == [Upper(a), Upper(b)]
    ensures ByteOf(Upper(a), Upper(b)) == ByteOf(a, b)
  {
    DigitOfNibble(a);
    DigitOfNibble(b);
    UpperNibble(a);
    UpperNibble(b);
    if IsHex(a) && IsHex(b) {
      Nibbles(HexNibble(a).value, HexNibble(b).value);
    }
  }

  lemma UpperNibble(c: char)
    ensures HexNibble(Upper(c)) == HexNibble(c)
  {
  }

  lemma Nibbles(high: nat, low: nat)
    requires high < 16 && low < 16
    ensures (16 * high + low) / 16 == high && (16 * high + low) % 16 == low
  {
  }

  /** The bytes as hexadecimal digits. */
  function HexText(bytes: seq<u8>): (text: string)
    ensures |text| == 2 * |bytes|
  {
    if bytes == [] then "" else HexText(bytes[..|bytes| - 1]) + HexByte(bytes[|bytes| - 1])
  }

  /** The bytes that pairs of hexadecimal digits stand for. */
  function BytesOf(text: string): Option<seq<u8>> {
    if text == "" then Some([]) else
    if |text| < 2 then None else
    var front, last := BytesOf(text[..|text| - 2]), ByteOf(text[|text| - 2], text[|text| - 1]);
    if front.None? || last.None? then None else Some(front.value + [last.value])
  }

  lemma {:induction false} BytesOfHexText(bytes: seq<u8>)
    ensures BytesOf(HexText(bytes)) == Some(bytes)
  {
    if bytes != [] {
      var n := |bytes| - 1;
      var text := HexText(bytes);
      BytesOfHexText(bytes[..n]);
      assert text[..|text| - 2] == HexText(bytes[..n]);
      ByteOfHexByte(bytes[n]);
      assert bytes == bytes[..n] + [bytes[n]];
    }
  }

  function UpperText(text: string): string {
    seq(|text|, k requires 0 <= k < |text| => Upper(text[k]))
  }

  lemma UpperPair(text: string)
    requires |text| >= 2
    ensures var n := |text| - 2;
            UpperText(text) == UpperText(text[..n]) + [Upper(text[n]), Upper(text[n + 1])]
    ensures UpperText(text)[..|text| - 2] == UpperText(text[..|text| - 2])
  {
  }

  /** A text of hexadecimal digit pairs has bytes, and they spell it in upper case. */
  lemma {:induction false} HexTextOfBytes(text: string)
    requires |text| % 2 == 0 && forall c <- text :: IsHex(c)
    ensures BytesOf(text).Some? && HexText(BytesOf(text).value) == UpperText(text)
    ensures 2 * |BytesOf(text).value| == |text|
    ensures BytesOf(UpperText(text)) == BytesOf(text)
  {
    if text != "" {
      var n := |text| - 2;
      HexTextOfBytes(text[..n]);
      HexByteOfPair(text[n], text[n + 1]);
      var bytes := BytesOf(text).value;
      assert bytes[..|bytes| - 1] == BytesOf(text[..n]).value;
      UpperPair(text);
    }
  }

  lemma {:induction false} HexTextIsHex(bytes: seq<u8>)
    ensures forall c <- HexText(bytes) :: IsHex(c)
    ensures UpperText(HexText(bytes)) == HexText(bytes)
  {
    if bytes != [] {
      var n := |bytes| - 1;
      HexTextIsHex(bytes[..n]);
      ByteOfHexByte(bytes[n]);
      var front := HexText(bytes[..n]);
      assert UpperText(HexText(bytes)) == UpperText(front) + UpperText(HexByte(bytes[n]));
    }
  }

  /** A text of digit pairs with a colon between each two. */
  function Colons(text: string): string {
    if |text| <= 2 then text else Colons(text[..|text| - 2]) + ":" + text[|text| - 2..]
  }

  /** For terminal display and copy and paste. */
  function FormatFingerprint(fingerprint: seq<u8>): string {
    if |fingerprint| == 0 then "" else
    if |fingerprint| == 1 then HexByte(fingerprint[0]) else
    FormatFingerprint(fingerprint[..|fingerprint| - 1]) + ":" + HexByte(fingerprint[|fingerprint| - 1])
  }

  lemma {:induction false} FormatIsColons(fingerprint: seq<u8>)
    ensures FormatFingerprint(fingerprint) == Colons(HexText(fingerprint))
  {
    if fingerprint != [] {
      var n := |fingerprint| - 1;
      var text := HexText(fingerprint);
      assert text[..|text| - 2] == HexText(fingerprint[..n]);
      assert text[|text| - 2..] == HexByte(fingerprint[n]);
      if n > 0 {
        FormatIsColons(fingerprint[..n]);
      } else {
        assert fingerprint[..0] == [];
      }
    }
  }

  predicate Separates(c: char) {
    c == ':' || c == '-' || c == ' ' || c == '\t' || c == '\r' || c == '\n'
  }

  function Compact(text: string): string {
    if text == "" then "" else
    var front := Compact(text[..|text| - 1]);
    if Separates(text[|text| - 1]) then front else front + [text[|text| - 1]]
  }

  lemma {:induction false} CompactConcat(a: string, b: string)
    ensures Compact(a + b) == Compact(a) + Compact(b)
  {
    if b == "" {
      assert a + b == a;
    } else {
      var n := |b| - 1;
      assert (a + b)[..|a| + n] == a + b[..n];
      CompactConcat(a, b[..n]);
    }
  }

  lemma {:induction false} CompactKeepsHex(text: string)
    requires forall c <- text :: IsHex(c)
    ensures Compact(text) == text
  {
    if text != "" {
      CompactKeepsHex(text[..|text| - 1]);
      assert text[|text| - 1] in text;
      assert text == text[..|text| - 1] + [text[|text| - 1]];
    }
  }

  lemma {:induction false} CompactDropsColons(text: string)
    requires forall c <- text :: IsHex(c)
    ensures Compact(Colons(text)) == text
  {
    if |text| <= 2 {
      CompactKeepsHex(text);
    } else {
      var front, last := text[..|text| - 2], text[|text| - 2..];
      CompactDropsColons(front);
      CompactKeepsHex(last);
      CompactConcat(Colons(front) + ":", last);
      CompactConcat(Colons(front), ":");
      assert Compact(":") == "" by {
        assert ":"[..0] == "";
      }
      assert text == front + last;
    }
  }

  /** The fingerprint that the text spells, whatever separates its digits. */
  function Parsed(input: string): Option<seq<u8>> {
    if |Compact(input)| != HEX_LENGTH then None else BytesOf(Compact(input))
  }

  method ParseFingerprint(input: string) returns (fingerprint: Option<seq<u8>>)
    ensures fingerprint == Parsed(input)
    ensures fingerprint.Some? ==> |fingerprint.value| == FINGERPRINT_BYTES
  {
    var compact := Compact(input);
    if |compact| != HEX_LENGTH {
      return None;
    }
    var bytes: seq<u8> := [];
    assert compact[..HEX_LENGTH] == compact;
    for index := 0 to FINGERPRINT_BYTES
      invariant |bytes| == index && BytesOf(compact[..2 * index]) == Some(bytes)
    {
      var high, low := HexNibble(compact[2 * index]), HexNibble(compact[2 * index + 1]);
      OneMorePair(compact, 2 * index, bytes);
      if high.None? || low.None? {
        NoBytesBeyond(compact, 2 * index + 2);
        return None;
      }
      bytes := bytes + [16 * high.value + low.value];
    }
    return Some(bytes);
  }

  /** Two digits more are one byte more, or no text of bytes at all. */
  lemma OneMorePair(text: string, k: nat, bytes: seq<u8>)
    requires k + 2 <= |text| && BytesOf(text[..k]) == Some(bytes)
    ensures var high, low := HexNibble(text[k]), HexNibble(text[k + 1]);
            BytesOf(text[..k + 2])
            == if high.None? || low.None? then None else Some(bytes + [16 * high.value + low.value])
  {
    assert text[..k + 2][..k] == text[..k];
    if HexNibble(text[k]).Some? && HexNibble(text[k + 1]).Some? {
      HexByteOfPair(text[k], text[k + 1]);
    }
  }

  lemma {:induction false} NoBytesBeyond(text: string, n: nat)
    requires n <= |text| && (|text| - n) % 2 == 0 && BytesOf(text[..n]).None?
    ensures BytesOf(text).None?
    decreases |text|
  {
    if n < |text| {
      var front := text[..|text| - 2];
      assert front[..n] == text[..n];
      NoBytesBeyond(front, n);
    } else {
      assert text[..n] == text;
    }
  }

  /** Every fingerprint is read back from its formatted text. */
  lemma ParseInvertsFormat(fingerprint: seq<u8>)
    requires |fingerprint| == FINGERPRINT_BYTES
    ensures Parsed(FormatFingerprint(fingerprint)) == Some(fingerprint)
  {
    FormatIsColons(fingerprint);
    HexTextIsHex(fingerprint);
    CompactDropsColons(HexText(fingerprint));
    BytesOfHexText(fingerprint);
  }

  /** A text is a fingerprint exactly if it has 64 hexadecimal digits beside separators, and
      then it is the same one, up to case and separators, as its formatted text. */
  lemma ParsesExactly(input: string)
    ensures Parsed(input).Some? <==> |Compact(input)| == HEX_LENGTH && forall c <- Compact(input) :: IsHex(c)
    ensures Parsed(input).Some? ==>
      Compact(FormatFingerprint(Parsed(input).value)) == UpperText(Compact(input))
  {
    var compact := Compact(input);
    BytesNeedHex(compact);
    if |compact| == HEX_LENGTH && forall c <- compact :: IsHex(c) {
      HexTextOfBytes(compact);
      var bytes := BytesOf(compact).value;
      FormatIsColons(bytes);
      HexTextIsHex(bytes);
      CompactDropsColons(HexText(bytes));
    }
  }

  lemma {:induction false} BytesNeedHex(text: string)
    ensures BytesOf(text).Some? ==> forall c <- text :: IsHex(c)
  {
    if |text| >= 2 {
      BytesNeedHex(text[..|text| - 2]);
      HexByteOfPair(text[|text| - 2], text[|text| - 1]);
      assert text == text[..|text| - 2] + [text[|text| - 2], text[|text| - 1]];
    }
  }
}
