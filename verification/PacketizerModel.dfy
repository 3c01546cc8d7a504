/** How the server cuts captured blocks into packets, as functions of values.

    A block is cut behind the tail that it continues. The reference is cutting a whole stream
    at once; cutting it block by block, with what each block leaves over, is the same
    (windows-server/src/network/server.rs). */
module PacketizerModel {
  import opened Numbers
  import opened AudioPackets

  const BLOCK_SAMPLES := 960
  const FOUR_MS_PACKET_SAMPLES := 384
  const FOUR_MS_TAIL_SAMPLES := 192

  /** The packet durations a connection may get. */
  type Duration = ms: nat | ms == 10 || ms == 5 || ms == 4 || ms == 2 || ms == 1 witness 1

  /** Samples of both channels in one packet at 48 kHz. */
  function SamplesPerPacket(ms: Duration): nat {
    48 * ms * 2
  }

  /** Samples of both channels in turn, with the source position of the first. */
  datatype Piece = Piece(timestamp: u64, samples: seq<i16>)

  /** A captured block is a piece of 10 ms. */
  type PcmBlock = Piece

  /** The source position `samples` samples of both channels further on. */
  function Advance(timestamp: u64, samples: nat): u64 {
    (timestamp + samples / 2) % U64_MODULUS
  }

  lemma AdvanceInParts(timestamp: u64, a: nat, b: nat)
    requires a % 2 == 0
    ensures Advance(Advance(timestamp, a), b) == Advance(timestamp, a + b)
  {
  }

  lemma AdvanceBySmall(timestamp: u64, samples: nat)
    requires samples / 2 < U64_MODULUS
    ensures Advance(timestamp, samples) == WrappingAdd64(timestamp, samples / 2)
  {
  }

  // ----- cutting a stream -----

  /** The whole packets in a stream whose first sample is at `timestamp`. */
  function Cut(samples: seq<i16>, timestamp: u64, size: nat): seq<Piece>
    requires size > 0
  {
    if |samples| < size then [] else
    [Piece(timestamp, samples[..size])] + Cut(samples[size..], Advance(timestamp, size), size)
  }

  /** What is left of the stream after its whole packets. */
  function Rest(samples: seq<i16>, timestamp: u64, size: nat): (rest: Piece)
    requires size > 0
    ensures |rest.samples| < size
  {
    if |samples| < size then Piece(timestamp, samples)
    else Rest(samples[size..], Advance(timestamp, size), size)
  }

  /** Cutting a stream part by part, each time with what the part before left over, is
      cutting all of it. */
  lemma {:induction false} CutInParts(samples: seq<i16>, more: seq<i16>, timestamp: u64, size: nat)
    requires size > 0
    ensures var rest := Rest(samples, timestamp, size);
            && Cut(samples, timestamp, size) + Cut(rest.samples + more, rest.timestamp, size)
               == Cut(samples + more, timestamp, size)
            && Rest(rest.samples + more, rest.timestamp, size) == Rest(samples + more, timestamp, size)
  {
    if |samples| >= size {
      CutInParts(samples[size..], more, Advance(timestamp, size), size);
      assert (samples + more)[size..] == samples[size..] + more;
      assert (samples + more)[..size] == samples[..size];
    } else {
      assert [] + Cut(samples + more, timestamp, size) == Cut(samples + more, timestamp, size);
    }
  }

  /** The pieces and what is left over are the samples of the stream in order. */
  lemma {:induction false} CutConserves(samples: seq<i16>, timestamp: u64, size: nat)
    requires size > 0
    ensures Joined(Cut(samples, timestamp, size)) + Rest(samples, timestamp, size).samples == samples
  {
    if |samples| >= size {
      CutConserves(samples[size..], Advance(timestamp, size), size);
      var pieces := Cut(samples, timestamp, size);
      assert pieces[1..] == Cut(samples[size..], Advance(timestamp, size), size);
      assert samples == samples[..size] + samples[size..];
    }
  }

  function Joined(pieces: seq<Piece>): seq<i16> {
    if pieces == [] then [] else pieces[0].samples + Joined(pieces[1..])
  }

  /** The first piece, and the others as pieces of what follows it. */
  lemma CutSplits(samples: seq<i16>, timestamp: u64, size: nat)
    requires 0 < size <= |samples|
    ensures var pieces, rest := Cut(samples, timestamp, size), Cut(samples[size..], Advance(timestamp, size), size);
            && |pieces| == |rest| + 1 && pieces[0] == Piece(timestamp, samples[..size])
            && forall k | 0 < k < |pieces| :: pieces[k] == rest[k - 1]
  {
  }

  lemma AdvanceNothing(timestamp: u64)
    ensures Advance(timestamp, 0) == timestamp
  {
  }

  /** Piece `k` is the `k`th run of `size` samples, at its own position in the source. */
  lemma {:induction false} CutAt(samples: seq<i16>, timestamp: u64, size: nat, k: nat, offset: nat)
    requires size > 0 && size % 2 == 0 && offset == k * size && offset + size <= |samples|
    ensures k < |Cut(samples, timestamp, size)|
    ensures Cut(samples, timestamp, size)[k]
            == Piece(Advance(timestamp, offset), samples[offset..offset + size])
  {
    hide Cut, Advance;
    CutSplits(samples, timestamp, size);
    if k == 0 {
      AdvanceNothing(timestamp);
      assert samples[0..size] == samples[..size];
    } else {
      LastRun(k, size);
      CutAt(samples[size..], Advance(timestamp, size), size, k - 1, offset - size);
      AdvanceInParts(timestamp, size, offset - size);
      RunInRest(samples, size, offset);
    }
  }

  lemma RunInRest(samples: seq<i16>, size: nat, offset: nat)
    requires size <= offset && offset + size <= |samples|
    ensures samples[size..][offset - size..offset - size + size] == samples[offset..offset + size]
  {
  }

  lemma {:induction false} CutCount(samples: seq<i16>, timestamp: u64, size: nat, n: nat)
    requires size > 0 && n * size <= |samples| < n * size + size
    ensures |Cut(samples, timestamp, size)| == n
  {
    if n > 0 {
      assert n * size == (n - 1) * size + size;
      CutCount(samples[size..], Advance(timestamp, size), size, n - 1);
    }
  }

  lemma LastRun(n: nat, size: nat)
    requires n > 0
    ensures (n - 1) * size == n * size - size >= 0
  {
  }

  lemma {:induction false} RestAt(samples: seq<i16>, timestamp: u64, size: nat, n: nat, m: nat)
    requires size > 0 && size % 2 == 0 && m == n * size && m <= |samples| < m + size
    ensures Rest(samples, timestamp, size) == Piece(Advance(timestamp, m), samples[m..])
  {
    if n == 0 {
      assert m == 0 && samples[0..] == samples;
    } else {
      LastRun(n, size);
      assert samples[size..][m - size..] == samples[m..];
      RestAt(samples[size..], Advance(timestamp, size), size, n - 1, m - size);
      AdvanceInParts(timestamp, size, m - size);
    }
  }

  /** The leftover ends where the stream ends. */
  lemma {:induction false} RestEndsWithStream(samples: seq<i16>, timestamp: u64, size: nat)
    requires size > 0 && size % 2 == 0
    ensures var rest := Rest(samples, timestamp, size);
            Advance(rest.timestamp, |rest.samples|) == Advance(timestamp, |samples|)
  {
    if |samples| >= size {
      RestEndsWithStream(samples[size..], Advance(timestamp, size), size);
      AdvanceInParts(timestamp, size, |samples| - size);
    }
  }

  /** What `chunks` yields at `index`: the run from `offset` on. */
  lemma RunAt(block: PcmBlock, size: nat, count: nat, index: nat) returns (offset: nat)
    requires IsBlock(block) && size > 0 && size % 2 == 0 && count * size == BLOCK_SAMPLES && index < count
    ensures offset == index * size && offset + size <= BLOCK_SAMPLES
    ensures var pieces := Cut(block.samples, block.timestamp, size);
            && index < |pieces|
            && pieces[index]
               == Piece(WrappingAdd64(block.timestamp, offset / 2), block.samples[offset..offset + size])
  {
    offset := index * size;
    assert (index + 1) * size <= count * size;
    CutAt(block.samples, block.timestamp, size, index, offset);
    AdvanceBySmall(block.timestamp, offset);
  }

  // ----- packets -----

  /** The sequence number `k` packets on. */
  function NumberAfter(sequence: u32, k: nat): u32 {
    if k == 0 then sequence else WrappingAdd(NumberAfter(sequence, k - 1), 1)
  }

  lemma {:induction false} NumberAfterInParts(sequence: u32, a: nat, b: nat)
    ensures NumberAfter(NumberAfter(sequence, a), b) == NumberAfter(sequence, a + b)
  {
    if b > 0 {
      NumberAfterInParts(sequence, a, b - 1);
    }
  }

  /** The pieces as packets numbered from `sequence`. */
  function Numbered(pieces: seq<Piece>, sequence: u32): (packets: seq<AudioPacket>)
    ensures |packets| == |pieces|
  {
    if pieces == [] then [] else
    var n := |pieces| - 1;
    Numbered(pieces[..n], sequence)
    + [AudioPacket(NumberAfter(sequence, n), pieces[n].timestamp, Payload(pieces[n].samples))]
  }

  lemma {:induction false} NumberedInParts(a: seq<Piece>, b: seq<Piece>, sequence: u32)
    ensures Numbered(a, sequence) + Numbered(b, NumberAfter(sequence, |a|)) == Numbered(a + b, sequence)
  {
    if b != [] {
      var n := |b| - 1;
      NumberedInParts(a, b[..n], sequence);
      assert (a + b)[..|a| + n] == a + b[..n];
      NumberAfterInParts(sequence, |a|, n);
    } else {
      assert a + b == a;
    }
  }

  lemma {:induction false} NumberedAt(pieces: seq<Piece>, sequence: u32, k: nat)
    requires k < |pieces|
    ensures Numbered(pieces, sequence)[k]
            == AudioPacket(NumberAfter(sequence, k), pieces[k].timestamp, Payload(pieces[k].samples))
  {
    var n := |pieces| - 1;
    if k < n {
      NumberedAt(pieces[..n], sequence, k);
    }
  }

  // ----- the packetizer -----

  /** How an attempt to send ends: the gate is off and nothing is tried; the datagram went
      out; the local queue was full and it is lost; the connection cannot carry it. */
  datatype Answer = Off | Sent | Lost | Failed

  predicate Stops(answer: Answer) {
    answer.Off? || answer.Failed?
  }

  /** How many of `n` packets go through before an answer stops the block. */
  function Reached(answers: nat -> Answer, n: nat): (m: nat)
    ensures m <= n && (m < n ==> Stops(answers(m)))
    ensures forall j: nat | j < m :: !Stops(answers(j))
  {
    if n == 0 then 0 else
    var m := Reached(answers, n - 1);
    if m < n - 1 || Stops(answers(n - 1)) then m else n
  }

  /** How many of `n` packets are tried: a failed one still takes its number. */
  function Tried(answers: nat -> Answer, n: nat): (m: nat)
    ensures m <= n
  {
    var m := Reached(answers, n);
    if m < n && answers(m).Failed? then m + 1 else m
  }

  lemma ReachedAll(answers: nat -> Answer, n: nat)
    requires forall j: nat | j < n :: !Stops(answers(j))
    ensures Reached(answers, n) == Tried(answers, n) == n
  {
  }

  lemma ReachedPart(answers: nat -> Answer, n: nat, k: nat)
    requires k < n && Stops(answers(k)) && forall j: nat | j < k :: !Stops(answers(j))
    ensures Reached(answers, n) == k && Tried(answers, n) == if answers(k).Failed? then k + 1 else k
  {
  }

  datatype Packetizer = Packetizer(sequence: u32, duration: Duration, tail: Option<Piece>)

  predicate Valid(p: Packetizer) {
    p.tail.Some? ==> p.duration == 4 && |p.tail.value.samples| == FOUR_MS_TAIL_SAMPLES
  }

  predicate IsBlock(block: PcmBlock) {
    |block.samples| == BLOCK_SAMPLES
  }

  /** The block continues the carried tail. */
  predicate Continues(p: Packetizer, block: PcmBlock) {
    p.tail.Some? && block.timestamp == Advance(p.tail.value.timestamp, FOUR_MS_TAIL_SAMPLES)
  }

  /** What is cut into packets when `block` is sent: the block behind the tail it continues;
      a tail that it does not continue is dropped. */
  function Joining(p: Packetizer, block: PcmBlock): Piece {
    if Continues(p, block) then Piece(p.tail.value.timestamp, p.tail.value.samples + block.samples)
    else Piece(block.timestamp, block.samples)
  }

  function Pieces(p: Packetizer, block: PcmBlock): seq<Piece> {
    var all := Joining(p, block);
    Cut(all.samples, all.timestamp, SamplesPerPacket(p.duration))
  }

  function Leftover(p: Packetizer, block: PcmBlock): Option<Piece> {
    var all := Joining(p, block);
    var rest := Rest(all.samples, all.timestamp, SamplesPerPacket(p.duration));
    if rest.samples == [] then None else Some(rest)
  }

  datatype Sending = Sending(packetizer: Packetizer, tried: seq<AudioPacket>, failed: bool)

  /** Sending a block: the packets tried, and whether the connection failed. */
  function SendBlock(p: Packetizer, block: PcmBlock, enabled: bool, answers: nat -> Answer): Sending {
    if !enabled then Sending(p, [], false) else
    var pieces := Pieces(p, block);
    var reached, tried := Reached(answers, |pieces|), Tried(answers, |pieces|);
    Sending(
      p.(sequence := NumberAfter(p.sequence, tried),
         tail := if reached == |pieces| then Leftover(p, block) else None),
      Numbered(pieces[..tried], p.sequence),
      tried > reached)
  }

  /** A block leaves either nothing over or, in 4 ms packets, 192 samples. */
  lemma BlocksLeaveTails(p: Packetizer, block: PcmBlock)
    requires Valid(p) && IsBlock(block)
    ensures |Pieces(p, block)| == PiecesOf(|Joining(p, block).samples|, p.duration)
    ensures Leftover(p, block).Some? ==>
      p.duration == 4 && |Leftover(p, block).value.samples| == FOUR_MS_TAIL_SAMPLES
    ensures p.duration == 4 ==> (Leftover(p, block).None? <==> Continues(p, block))
  {
    var all, size := Joining(p, block), SamplesPerPacket(p.duration);
    var n := PiecesOf(|all.samples|, p.duration);
    CutCount(all.samples, all.timestamp, size, n);
    RestAt(all.samples, all.timestamp, size, n, n * size);
  }

  /** How many packets a block makes, alone or behind a tail. */
  function PiecesOf(samples: nat, ms: Duration): nat {
    match ms
    case 10 => 1
    case 5 => 2
    case 4 => if samples == BLOCK_SAMPLES then 2 else 3
    case 2 => 5
    case _ => 10
  }

  lemma BlockRuns(ms: Duration)
    requires ms != 4
    ensures BLOCK_SAMPLES / SamplesPerPacket(ms) == PiecesOf(BLOCK_SAMPLES, ms)
    ensures PiecesOf(BLOCK_SAMPLES, ms) * SamplesPerPacket(ms) == BLOCK_SAMPLES
  {
  }

  /** `all` is the block, or the block behind a tail. */
  predicate Behind(block: PcmBlock, all: Piece) {
    var carried := |all.samples| - BLOCK_SAMPLES;
    && IsBlock(block) && (carried == 0 || carried == FOUR_MS_TAIL_SAMPLES)
    && all.samples[carried..] == block.samples && block.timestamp == Advance(all.timestamp, carried)
  }

  lemma JoiningIsBehind(p: Packetizer, block: PcmBlock)
    requires Valid(p) && IsBlock(block)
    ensures Behind(block, Joining(p, block))
  {
  }

  /** Where 4 ms packet `k` begins in the block. */
  lemma BehindAt(block: PcmBlock, all: Piece, offset: nat, k: nat)
    requires Behind(block, all) && offset == FOUR_MS_PACKET_SAMPLES * k - (|all.samples| - BLOCK_SAMPLES)
    requires offset + FOUR_MS_PACKET_SAMPLES <= BLOCK_SAMPLES
    ensures var pieces := Cut(all.samples, all.timestamp, FOUR_MS_PACKET_SAMPLES);
            k < |pieces| && pieces[k]
              == Piece(Advance(block.timestamp, offset), block.samples[offset..offset + FOUR_MS_PACKET_SAMPLES])
  {
    var carried := |all.samples| - BLOCK_SAMPLES;
    CutAt(all.samples, all.timestamp, FOUR_MS_PACKET_SAMPLES, k, FOUR_MS_PACKET_SAMPLES * k);
    AdvanceInParts(all.timestamp, carried, offset);
    assert all.samples[carried..][offset..offset + FOUR_MS_PACKET_SAMPLES]
        == all.samples[carried + offset..carried + offset + FOUR_MS_PACKET_SAMPLES];
  }

  lemma BehindRest(block: PcmBlock, all: Piece, offset: nat, n: nat)
    requires Behind(block, all) && offset == FOUR_MS_PACKET_SAMPLES * n - (|all.samples| - BLOCK_SAMPLES)
    requires offset <= BLOCK_SAMPLES < offset + FOUR_MS_PACKET_SAMPLES
    ensures Rest(all.samples, all.timestamp, FOUR_MS_PACKET_SAMPLES)
            == Piece(Advance(block.timestamp, offset), block.samples[offset..])
  {
    var carried := |all.samples| - BLOCK_SAMPLES;
    RestAt(all.samples, all.timestamp, FOUR_MS_PACKET_SAMPLES, n, carried + offset);
    AdvanceInParts(all.timestamp, carried, offset);
    assert all.samples[carried..][offset..] == all.samples[carried + offset..];
  }
}
