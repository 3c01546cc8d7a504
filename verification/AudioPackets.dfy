/** The real-time audio datagram (crates/protocol/src/audio.rs) and the
    little-endian sample bytes it carries. */
module AudioPackets {
  import opened Numbers

  const HEADER_LEN := 12

  datatype AudioPacket = AudioPacket(sequence: u32, timestamp: u64, payload: seq<u8>)

  datatype Decoded = Packet(packet: AudioPacket) | TooShort(actual: nat, minimum: nat)

  function Power256(width: nat): nat {
    if width == 0 then 1 else 256 * Power256(width - 1)
  }

  /** The last `width` base-256 digits of `n`, the most significant first. */
  function BigEndian(n: nat, width: nat): (bytes: seq<u8>)
    ensures |bytes| == width
  {
    if width == 0 then [] else BigEndian(n / 256, width - 1) + [n % 256]
  }

  function FromBigEndian(bytes: seq<u8>): (n: nat)
    ensures n < Power256(|bytes|)
  {
    if bytes == [] then 0 else 256 * FromBigEndian(bytes[..|bytes| - 1]) + bytes[|bytes| - 1]
  }

  lemma {:induction false} BigEndianOfNumber(n: nat, width: nat)
    requires n < Power256(width)
    ensures FromBigEndian(BigEndian(n, width)) == n
  {
    if width > 0 {
      BigEndianOfNumber(n / 256, width - 1);
      var bytes := BigEndian(n, width);
      assert bytes[..width - 1] == BigEndian(n / 256, width - 1);
    }
  }

  lemma LastDigit(front: nat, last: u8)
    ensures (256 * front + last) / 256 == front && (256 * front + last) % 256 == last
  {
  }

  lemma {:induction false} BigEndianOfBytes(bytes: seq<u8>)
    ensures BigEndian(FromBigEndian(bytes), |bytes|) == bytes
  {
    if bytes != [] {
      var front, last := bytes[..|bytes| - 1], bytes[|bytes| - 1];
      BigEndianOfBytes(front);
      LastDigit(FromBigEndian(front), last);
      assert bytes == front + [last];
    }
  }

  lemma Widths()
    ensures Power256(4) == U32_MODULUS && Power256(8) == U64_MODULUS
  {
  }

  /** The wire format: both header integers in network byte order, then the payload. */
  function Wire(packet: AudioPacket): seq<u8> {
    BigEndian(packet.sequence, 4) + BigEndian(packet.timestamp, 8) + packet.payload
  }

  method Encode(packet: AudioPacket) returns (encoded: seq<u8>)
    ensures encoded == Wire(packet)
  {
    encoded := [];
    encoded := encoded + BigEndian(packet.sequence, 4);
    encoded := encoded + BigEndian(packet.timestamp, 8);
    encoded := encoded + packet.payload;
  }

  function Decode(encoded: seq<u8>): Decoded {
    if |encoded| < HEADER_LEN then TooShort(|encoded|, HEADER_LEN)
    else
      Widths();
      Packet(AudioPacket(FromBigEndian(encoded[..4]), FromBigEndian(encoded[4..HEADER_LEN]), encoded[HEADER_LEN..]))
  }

  /** Every packet survives the wire. */
  lemma DecodeInvertsEncode(packet: AudioPacket)
    ensures Decode(Wire(packet)) == Packet(packet)
  {
    Widths();
    var wire := Wire(packet);
    BigEndianOfNumber(packet.sequence, 4);
    BigEndianOfNumber(packet.timestamp, 8);
    assert wire[..4] == BigEndian(packet.sequence, 4);
    assert wire[4..HEADER_LEN] == BigEndian(packet.timestamp, 8);
    assert wire[HEADER_LEN..] == packet.payload;
  }

  /** A datagram decodes unless it is shorter than the header, and then it is the
      encoding of what it decodes to: no two datagrams mean the same packet. */
  lemma EncodeInvertsDecode(encoded: seq<u8>)
    ensures Decode(encoded).TooShort? <==> |encoded| < HEADER_LEN
    ensures Decode(encoded).Packet? ==> Wire(Decode(encoded).packet) == encoded
  {
    if |encoded| >= HEADER_LEN {
      Widths();
      BigEndianOfBytes(encoded[..4]);
      BigEndianOfBytes(encoded[4..HEADER_LEN]);
      assert encoded == encoded[..4] + encoded[4..HEADER_LEN] + encoded[HEADER_LEN..];
    }
  }

  /** `i16::to_le_bytes`. */
  function LittleEndian(sample: i16): (bytes: seq<u8>)
    ensures |bytes| == 2
  {
    var unsigned := if sample < 0 then sample + 0x1_0000 else sample;
    [unsigned % 256, unsigned / 256]
  }

  /** `i16::from_le_bytes`. */
  function FromLittleEndian(low: u8, high: u8): i16 {
    var unsigned := low + 256 * high;
    if unsigned >= 0x8000 then unsigned - 0x1_0000 else unsigned
  }

  /** The payload that carries `samples`. */
  function Payload(samples: seq<i16>): (payload: seq<u8>)
    ensures |payload| == 2 * |samples|
  {
    if samples == [] then [] else Payload(samples[..|samples| - 1]) + LittleEndian(samples[|samples| - 1])
  }

  /** The whole samples in `pcm`; an odd last byte is no sample. */
  function Samples(pcm: seq<u8>): (samples: seq<i16>)
    ensures |samples| == |pcm| / 2
  {
    seq(|pcm| / 2, j requires 0 <= j < |pcm| / 2 => FromLittleEndian(pcm[2 * j], pcm[2 * j + 1]))
  }

  /** The phone reads back the samples the server wrote. */
  lemma {:induction false} SamplesOfPayload(samples: seq<i16>)
    ensures Samples(Payload(samples)) == samples
  {
    if samples != [] {
      var n := |samples| - 1;
      SamplesOfPayload(samples[..n]);
      var front, payload := Payload(samples[..n]), Payload(samples);
      forall j | 0 <= j < n ensures Samples(payload)[j] == samples[j] {
        assert payload[2 * j] == front[2 * j] && payload[2 * j + 1] == front[2 * j + 1];
        assert Samples(front)[j] == samples[..n][j];
      }
      assert Samples(payload)[n] == samples[n];
    }
  }

  /** The bytes of a datagram, one by one: sequence number and position with the most significant
      byte first, and then the payload. */
  lemma WireIsExact(packet: AudioPacket)
    ensures var w: seq<int> := Wire(packet);
            && |w| == 12 + |packet.payload| && w[12..] == packet.payload
            && packet.sequence == 0x100_0000 * w[0] + 0x1_0000 * w[1] + 0x100 * w[2] + w[3]
            && packet.timestamp == 0x1_0000_0000 * (0x100_0000 * w[4] + 0x1_0000 * w[5] + 0x100 * w[6] + w[7])
                                   + 0x100_0000 * w[8] + 0x1_0000 * w[9] + 0x100 * w[10] + w[11]
  {
    var w := Wire(packet);
    Widths();
    BigEndianOfNumber(packet.sequence, 4);
    BigEndianOfNumber(packet.timestamp, 8);
    assert w[..4] == BigEndian(packet.sequence, 4) && w[4..12] == BigEndian(packet.timestamp, 8);
    FourBytes(w[..4]);
    EightBytes(w[4..12]);
    assert w[12..] == packet.payload;
  }

  lemma {:induction false} OneByteMore(front: seq<u8>, last: u8)
    ensures FromBigEndian(front + [last]) == 0x100 * FromBigEndian(front) + last
  {
    assert (front + [last])[..|front|] == front;
  }

  lemma FourBytes(b: seq<u8>)
    requires |b| == 4
    ensures var d: seq<int> := b; FromBigEndian(b) == 0x100_0000 * d[0] + 0x1_0000 * d[1] + 0x100 * d[2] + d[3]
  {
    assert b == [] + [b[0]] + [b[1]] + [b[2]] + [b[3]];
    OneByteMore([], b[0]);
    OneByteMore([] + [b[0]], b[1]);
    OneByteMore([] + [b[0]] + [b[1]], b[2]);
    OneByteMore([] + [b[0]] + [b[1]] + [b[2]], b[3]);
  }

  lemma EightBytes(b: seq<u8>)
    requires |b| == 8
    ensures var d: seq<int> := b;
            FromBigEndian(b) == 0x1_0000_0000 * (0x100_0000 * d[0] + 0x1_0000 * d[1] + 0x100 * d[2] + d[3])
                                + 0x100_0000 * d[4] + 0x1_0000 * d[5] + 0x100 * d[6] + d[7]
  {
    FourBytes(b[..4]);
    assert b == b[..4] + [b[4]] + [b[5]] + [b[6]] + [b[7]];
    OneByteMore(b[..4], b[4]);
    OneByteMore(b[..4] + [b[4]], b[5]);
    OneByteMore(b[..4] + [b[4]] + [b[5]], b[6]);
    OneByteMore(b[..4] + [b[4]] + [b[5]] + [b[6]], b[7]);
  }

  /** Each sample travels as two bytes, the less significant one first. */
  lemma {:induction false} PayloadIsExact(samples: seq<i16>, j: nat)
    requires j < |samples|
    ensures var p: seq<int>, s: seq<int> := Payload(samples), samples;
            p[2 * j] + 0x100 * p[2 * j + 1] == s[j] + if s[j] < 0 then 0x1_0000 else 0
  {
    if j < |samples| - 1 {
      PayloadIsExact(samples[..|samples| - 1], j);
    }
  }
}
