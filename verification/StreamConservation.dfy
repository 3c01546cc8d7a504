/** From captured blocks to packets and back to samples: over whole runs of the packetizer
    nothing is lost, repeated or shifted but the tail of a 4 ms stream at a gap. */
module StreamConservation {
  import opened Numbers
  import opened AudioPackets
  import opened PacketizerModel
  import Capture

  /** A block to send, and how the attempts for its packets end. */
  datatype Delivery = Delivery(block: PcmBlock, answers: nat -> Answer)

  ghost predicate FullySent(d: Delivery) {
    IsBlock(d.block) && forall j: nat :: !Stops(d.answers(j))
  }

  function Send(p: Packetizer, d: Delivery): Sending {
    SendBlock(p, d.block, true, d.answers)
  }

  datatype Output = Output(packetizer: Packetizer, tried: seq<AudioPacket>)

  function Run(p: Packetizer, run: seq<Delivery>): Output {
    if run == [] then Output(p, []) else
    var before := Run(p, run[..|run| - 1]);
    var last := Send(before.packetizer, run[|run| - 1]);
    Output(last.packetizer, before.tried + last.tried)
  }

  /** The samples of the blocks, in order. */
  function Stream(run: seq<Delivery>): seq<i16> {
    if run == [] then [] else Stream(run[..|run| - 1]) + run[|run| - 1].block.samples
  }

  /** Fully sent blocks, each beginning where the one before ends. */
  ghost predicate Contiguous(run: seq<Delivery>) {
    && (forall d <- run :: FullySent(d))
    && forall k | 0 < k < |run| ::
         run[k].block.timestamp == Advance(run[k - 1].block.timestamp, BLOCK_SAMPLES)
  }

  /** The packetizer that has cut `samples` from `timestamp` on since it was `p`. */
  function After(p: Packetizer, samples: seq<i16>, timestamp: u64): Packetizer {
    var size := SamplesPerPacket(p.duration);
    var rest := Rest(samples, timestamp, size);
    p.(sequence := NumberAfter(p.sequence, |Cut(samples, timestamp, size)|),
       tail := if rest.samples == [] then None else Some(rest))
  }

  /** The reference: the stream cut at once, its packets numbered on from `p`. */
  function Packets(p: Packetizer, samples: seq<i16>, timestamp: u64): seq<AudioPacket> {
    Numbered(Cut(samples, timestamp, SamplesPerPacket(p.duration)), p.sequence)
  }

  lemma FullySentBlock(p: Packetizer, d: Delivery)
    requires FullySent(d)
    ensures Send(p, d) == Sending(
              p.(sequence := NumberAfter(p.sequence, |Pieces(p, d.block)|), tail := Leftover(p, d.block)),
              Numbered(Pieces(p, d.block), p.sequence), false)
  {
    ReachedAll(d.answers, |Pieces(p, d.block)|);
    assert Pieces(p, d.block)[..|Pieces(p, d.block)|] == Pieces(p, d.block);
  }

  lemma {:induction false} StreamIsEven(run: seq<Delivery>)
    requires forall d <- run :: IsBlock(d.block)
    ensures |Stream(run)| % 2 == 0
  {
    if run != [] {
      StreamIsEven(run[..|run| - 1]);
      assert run[|run| - 1] in run;
    }
  }

  lemma {:induction false} StreamEnds(run: seq<Delivery>)
    requires Contiguous(run) && run != []
    ensures Advance(run[0].block.timestamp, |Stream(run)|)
            == Advance(run[|run| - 1].block.timestamp, BLOCK_SAMPLES)
  {
    var n := |run| - 1;
    assert run[n] in run;
    if n > 0 {
      StreamEnds(run[..n]);
      StreamIsEven(run[..n]);
      AdvanceInParts(run[0].block.timestamp, |Stream(run[..n])|, BLOCK_SAMPLES);
    } else {
      assert run[..0] == [];
    }
  }

  /** The next block of a contiguous stream joins exactly what is left of the stream. */
  lemma JoinsLeftover(p: Packetizer, samples: seq<i16>, timestamp: u64, block: PcmBlock)
    requires IsBlock(block) && Valid(After(p, samples, timestamp)) && |samples| % 2 == 0
    requires block.timestamp == Advance(timestamp, |samples|)
    ensures var rest := Rest(samples, timestamp, SamplesPerPacket(p.duration));
            Joining(After(p, samples, timestamp), block) == Piece(rest.timestamp, rest.samples + block.samples)
  {
    RestEndsWithStream(samples, timestamp, SamplesPerPacket(p.duration));
    var rest := Rest(samples, timestamp, SamplesPerPacket(p.duration));
    assert [] + block.samples == block.samples;
  }

  lemma NextBlock(p: Packetizer, samples: seq<i16>, timestamp: u64, d: Delivery)
    requires FullySent(d) && Valid(After(p, samples, timestamp)) && |samples| % 2 == 0
    requires d.block.timestamp == Advance(timestamp, |samples|)
    ensures var next, all := Send(After(p, samples, timestamp), d), samples + d.block.samples;
            && next.packetizer == After(p, all, timestamp)
            && Packets(p, samples, timestamp) + next.tried == Packets(p, all, timestamp)
  {
    var after := After(p, samples, timestamp);
    FullySentBlock(after, d);
    JoinsLeftover(p, samples, timestamp, d.block);
    JoinedCut(p, samples, d.block.samples, timestamp);
  }

  /** Cutting on from the leftover gives the packets and the state of cutting at once. */
  lemma JoinedCut(p: Packetizer, samples: seq<i16>, more: seq<i16>, timestamp: u64)
    ensures var size := SamplesPerPacket(p.duration);
            var rest := Rest(samples, timestamp, size);
            var next := Cut(rest.samples + more, rest.timestamp, size);
            var number := NumberAfter(p.sequence, |Cut(samples, timestamp, size)|);
            && Rest(rest.samples + more, rest.timestamp, size) == Rest(samples + more, timestamp, size)
            && NumberAfter(number, |next|) == NumberAfter(p.sequence, |Cut(samples + more, timestamp, size)|)
            && Packets(p, samples, timestamp) + Numbered(next, number) == Packets(p, samples + more, timestamp)
  {
    var size := SamplesPerPacket(p.duration);
    var cut, rest := Cut(samples, timestamp, size), Rest(samples, timestamp, size);
    var next := Cut(rest.samples + more, rest.timestamp, size);
    CutInParts(samples, more, timestamp, size);
    NumberedInParts(cut, next, p.sequence);
    NumberAfterInParts(p.sequence, |cut|, |next|);
  }

  /** The first block of a stream: no tail, or one that it does not continue. */
  lemma FirstBlock(p: Packetizer, d: Delivery)
    requires FullySent(d) && Valid(p) && !Continues(p, d.block)
    ensures var first := Send(p, d);
            && first.packetizer == After(p, d.block.samples, d.block.timestamp)
            && first.tried == Packets(p, d.block.samples, d.block.timestamp)
  {
    FullySentBlock(p, d);
  }

  lemma SendKeepsValid(p: Packetizer, d: Delivery)
    requires Valid(p) && IsBlock(d.block)
    ensures Valid(Send(p, d).packetizer)
  {
    BlocksLeaveTails(p, d.block);
  }

  /** Running the blocks has the packets and the state of cutting their stream at once. */
  predicate CutsStream(p: Packetizer, run: seq<Delivery>)
    requires run != []
  {
    var timestamp := run[0].block.timestamp;
    && Run(p, run) == Output(After(p, Stream(run), timestamp), Packets(p, Stream(run), timestamp))
    && Valid(After(p, Stream(run), timestamp))
  }

  lemma NextBlockCuts(p: Packetizer, front: seq<Delivery>, d: Delivery)
    requires front != [] && CutsStream(p, front) && FullySent(d) && |Stream(front)| % 2 == 0
    requires d.block.timestamp == Advance(front[0].block.timestamp, |Stream(front)|)
    ensures CutsStream(p, front + [d])
  {
    assert (front + [d])[..|front|] == front;
    NextBlock(p, Stream(front), front[0].block.timestamp, d);
    SendKeepsValid(Run(p, front).packetizer, d);
  }

  lemma FirstBlockCuts(p: Packetizer, d: Delivery)
    requires FullySent(d) && Valid(p) && !Continues(p, d.block)
    ensures CutsStream(p, [d])
  {
    assert [d][..0] == [];
    FirstBlock(p, d);
    assert [] + d.block.samples == d.block.samples;
    assert [] + Send(p, d).tried == Send(p, d).tried;
    SendKeepsValid(p, d);
  }

  /** Sending contiguous blocks one by one cuts their stream as if it came at once. */
  lemma {:induction false} ContiguousRun(p: Packetizer, run: seq<Delivery>)
    requires Contiguous(run) && run != [] && Valid(p) && !Continues(p, run[0].block)
    ensures CutsStream(p, run)
  {
    var n := |run| - 1;
    assert run[n] in run;
    assert run == run[..n] + [run[n]];
    if n == 0 {
      FirstBlockCuts(p, run[0]);
    } else {
      ContiguousRun(p, run[..n]);
      StreamEnds(run[..n]);
      StreamIsEven(run[..n]);
      NextBlockCuts(p, run[..n], run[n]);
    }
  }

  /** Conservation: what the packets of a contiguous run carry, and then the pending tail,
      is the stream of the blocks; every packet has the full size. */
  lemma StreamIsConserved(p: Packetizer, run: seq<Delivery>)
    requires Contiguous(run) && run != [] && Valid(p) && p.tail.None?
    ensures Carried(Run(p, run).tried) + TailOf(Run(p, run).packetizer) == Stream(run)
    ensures |TailOf(Run(p, run).packetizer)| <= if p.duration == 4 then FOUR_MS_TAIL_SAMPLES else 0
  {
    ContiguousRun(p, run);
    var timestamp, size := run[0].block.timestamp, SamplesPerPacket(p.duration);
    CutConserves(Stream(run), timestamp, size);
    CarriedIsJoined(Cut(Stream(run), timestamp, size), p.sequence);
  }

  function TailOf(p: Packetizer): seq<i16> {
    if p.tail.Some? then p.tail.value.samples else []
  }

  /** The samples that the phone writes to its ring for these packets. */
  function Carried(packets: seq<AudioPacket>): seq<i16> {
    if packets == [] then [] else Carried(packets[..|packets| - 1]) + Samples(packets[|packets| - 1].payload)
  }

  lemma {:induction false} CarriedIsJoined(pieces: seq<Piece>, sequence: u32)
    ensures Carried(Numbered(pieces, sequence)) == Joined(pieces)
  {
    if pieces != [] {
      var n := |pieces| - 1;
      CarriedIsJoined(pieces[..n], sequence);
      assert Numbered(pieces, sequence)[..n] == Numbered(pieces[..n], sequence);
      SamplesOfPayload(pieces[n].samples);
      JoinedAppend(pieces[..n], pieces[n]);
      assert pieces[..n] + [pieces[n]] == pieces;
    }
  }

  lemma {:induction false} JoinedAppend(pieces: seq<Piece>, last: Piece)
    ensures Joined(pieces + [last]) == Joined(pieces) + last.samples
  {
    if pieces != [] {
      JoinedAppend(pieces[1..], last);
      assert (pieces + [last])[1..] == pieces[1..] + [last];
    }
  }

  /** Packet `k` of a contiguous run, off the wire, is numbered `k` after the first, has the
      source position of its first sample and carries exactly its samples of the stream. */
  lemma PacketsAreExact(p: Packetizer, run: seq<Delivery>, k: nat, offset: nat) returns (packet: AudioPacket)
    requires Contiguous(run) && run != [] && Valid(p) && p.tail.None?
    requires offset == k * SamplesPerPacket(p.duration)
    requires offset + SamplesPerPacket(p.duration) <= |Stream(run)|
    ensures k < |Run(p, run).tried| && Decode(Wire(Run(p, run).tried[k])) == Packet(packet)
    ensures packet.sequence == NumberAfter(p.sequence, k)
    ensures packet.timestamp == Advance(run[0].block.timestamp, offset)
    ensures Samples(packet.payload) == Stream(run)[offset..offset + SamplesPerPacket(p.duration)]
    ensures |packet.payload| == 2 * SamplesPerPacket(p.duration)
  {
    ContiguousRun(p, run);
    PacketAt(p, Stream(run), run[0].block.timestamp, k, offset);
    packet := Run(p, run).tried[k];
    DecodeInvertsEncode(packet);
  }

  lemma PacketAt(p: Packetizer, samples: seq<i16>, timestamp: u64, k: nat, offset: nat)
    requires offset == k * SamplesPerPacket(p.duration) && offset + SamplesPerPacket(p.duration) <= |samples|
    ensures k < |Packets(p, samples, timestamp)|
    ensures var packet := Packets(p, samples, timestamp)[k];
            && packet.sequence == NumberAfter(p.sequence, k) && packet.timestamp == Advance(timestamp, offset)
            && Samples(packet.payload) == samples[offset..offset + SamplesPerPacket(p.duration)]
            && |packet.payload| == 2 * SamplesPerPacket(p.duration)
  {
    var size := SamplesPerPacket(p.duration);
    CutAt(samples, timestamp, size, k, offset);
    var pieces := Cut(samples, timestamp, size);
    NumberedAt(pieces, p.sequence, k);
    SamplesOfPayload(pieces[k].samples);
  }

  lemma Remainder(n: nat, q: nat, r: nat)
    requires n == q * U32_MODULUS + r && r < U32_MODULUS
    ensures n % U32_MODULUS == r
  {
  }

  /** The numbers of a sender wrap at 2^32 and nowhere else. */
  lemma {:induction false} NumbersWrap(sequence: u32, k: nat)
    ensures NumberAfter(sequence, k) == (sequence + k) % U32_MODULUS
  {
    if k > 0 {
      NumbersWrap(sequence, k - 1);
      var n := sequence + k - 1;
      assert n == n / U32_MODULUS * U32_MODULUS + n % U32_MODULUS;
      if n % U32_MODULUS + 1 == U32_MODULUS {
        Remainder(n + 1, n / U32_MODULUS + 1, 0);
      } else {
        Remainder(n + 1, n / U32_MODULUS, n % U32_MODULUS + 1);
      }
    }
  }

  lemma {:induction false} StreamIsJoined(run: seq<Delivery>, blocks: seq<Piece>)
    requires |run| == |blocks| && forall k | 0 <= k < |run| :: run[k].block == blocks[k]
    ensures Stream(run) == Joined(blocks)
  {
    if run != [] {
      var n := |run| - 1;
      StreamIsJoined(run[..n], blocks[..n]);
      JoinedAppend(blocks[..n], blocks[n]);
      assert blocks[..n] + [blocks[n]] == blocks;
    }
  }

  /** The run sends the blocks that the capture made of `samples`. */
  ghost predicate SendsCaptured(run: seq<Delivery>, samples: seq<i16>, timestamp: u64) {
    var blocks := Cut(samples, timestamp, BLOCK_SAMPLES);
    && |run| == |blocks| && (forall k | 0 <= k < |run| :: run[k].block == blocks[k])
    && forall d <- run :: FullySent(d)
  }

  lemma CapturedIsContiguous(run: seq<Delivery>, samples: seq<i16>, timestamp: u64)
    requires SendsCaptured(run, samples, timestamp)
    ensures Contiguous(run)
  {
    forall k | 0 < k < |run|
      ensures run[k].block.timestamp == Advance(run[k - 1].block.timestamp, BLOCK_SAMPLES)
    {
      Capture.BlocksAreContiguous(samples, timestamp, k - 1);
    }
  }

  /** From capture to playback: what the phone gets, what waits in the packetizer and what
      waits in the block assembler are together the captured samples, in order. */
  lemma CapturedIsCarried(p: Packetizer, samples: seq<i16>, timestamp: u64, run: seq<Delivery>)
    requires Valid(p) && p.tail.None? && run != [] && SendsCaptured(run, samples, timestamp)
    ensures Carried(Run(p, run).tried) + TailOf(Run(p, run).packetizer)
            + Rest(samples, timestamp, BLOCK_SAMPLES).samples == samples
  {
    CapturedIsContiguous(run, samples, timestamp);
    StreamIsConserved(p, run);
    StreamIsJoined(run, Cut(samples, timestamp, BLOCK_SAMPLES));
    CutConserves(samples, timestamp, BLOCK_SAMPLES);
  }

  // ----- what stops a block -----

  /** While sending is switched off a block leaves no trace. */
  lemma DisabledSendsNothing(p: Packetizer, block: PcmBlock, answers: nat -> Answer)
    ensures SendBlock(p, block, false, answers) == Sending(p, [], false)
  {
  }

  /** The first answer that stops a block cuts it short: the packets before it were tried, and it
      too if it failed; the rest of the block and what would be left over are lost, and the loop
      fails exactly if it failed. */
  lemma StoppedBlockIsCutShort(p: Packetizer, block: PcmBlock, answers: nat -> Answer, m: nat)
    requires m < |Pieces(p, block)| && Stops(answers(m)) && forall j: nat | j < m :: !Stops(answers(j))
    ensures var tried := if answers(m).Failed? then m + 1 else m;
            SendBlock(p, block, true, answers)
            == Sending(p.(sequence := NumberAfter(p.sequence, tried), tail := None),
                       Numbered(Pieces(p, block)[..tried], p.sequence), answers(m).Failed?)
  {
    ReachedPart(answers, |Pieces(p, block)|, m);
  }

  // ----- gaps -----

  /** A contiguous stretch of blocks; before it the capture skipped blocks, or the sender
      dropped its tail because it went idle, lagged or was switched off. */
  datatype Segment = Segment(run: seq<Delivery>, reset: bool)

  function Begin(p: Packetizer, segment: Segment): Packetizer {
    if segment.reset then p.(tail := None) else p
  }

  function RunSegments(p: Packetizer, segments: seq<Segment>): Output {
    if segments == [] then Output(p, []) else
    var before := RunSegments(p, segments[..|segments| - 1]);
    var last := segments[|segments| - 1];
    var after := Run(Begin(before.packetizer, last), last.run);
    Output(after.packetizer, before.tried + after.tried)
  }

  ghost predicate Separated(segments: seq<Segment>) {
    && (forall s <- segments :: s.run != [] && Contiguous(s.run))
    && forall k | 0 < k < |segments| ::
         Breaks(segments[k - 1], segments[k])
  }

  /** Where the segment ends in the source. */
  function EndOf(segment: Segment): u64
    requires segment.run != []
  {
    Advance(segment.run[|segment.run| - 1].block.timestamp, BLOCK_SAMPLES)
  }

  /** The tail that waits after the segment ends where the segment ends. */
  predicate TailEnds(p: Packetizer, segment: Segment)
    requires segment.run != []
  {
    p.tail.Some? ==> Advance(p.tail.value.timestamp, FOUR_MS_TAIL_SAMPLES) == EndOf(segment)
  }

  lemma GapBreaksTail(p: Packetizer, last: Segment, next: Segment)
    requires last.run != [] && next.run != [] && TailEnds(p, last)
    requires Breaks(last, next)
    ensures !Continues(Begin(p, next), next.run[0].block)
  {
  }

  /** The reference for a run with gaps: each segment cut on its own, numbered on. */
  ghost function PacketsOfSegments(p: Packetizer, segments: seq<Segment>): seq<AudioPacket>
    requires forall s <- segments :: s.run != []
  {
    if segments == [] then [] else
    var before := PacketsOfSegments(p, segments[..|segments| - 1]);
    var last := segments[|segments| - 1];
    before + Packets(p.(sequence := NumberAfter(p.sequence, |before|)), Stream(last.run), last.run[0].block.timestamp)
  }

  ghost predicate Accounted(p: Packetizer, segments: seq<Segment>, after: Output)
    requires forall s <- segments :: s.run != []
  {
    && after.tried == PacketsOfSegments(p, segments)
    && Valid(after.packetizer) && after.packetizer.duration == p.duration
    && after.packetizer.sequence == NumberAfter(p.sequence, |after.tried|)
    && if segments == [] then after.packetizer.tail.None?
       else TailEnds(after.packetizer, segments[|segments| - 1])
  }

  /** Over any run of blocks with gaps, every segment reaches the packets as if it were
      alone: a gap costs what its segment leaves over, at most 192 samples of a 4 ms stream. */
  lemma {:induction false} GapsLoseOnlyTails(p: Packetizer, segments: seq<Segment>)
    requires Valid(p) && p.tail.None? && Separated(segments)
    ensures Accounted(p, segments, RunSegments(p, segments))
  {
    if segments != [] {
      var front, last := segments[..|segments| - 1], segments[|segments| - 1];
      SeparatedParts(segments, front, last);
      GapsLoseOnlyTails(p, front);
      NextSegment(p, front, last);
    }
  }

  lemma SeparatedParts(segments: seq<Segment>, front: seq<Segment>, last: Segment)
    requires Separated(segments) && segments != []
    requires front == segments[..|segments| - 1] && last == segments[|segments| - 1]
    ensures Separated(front) && segments == front + [last]
    ensures last.run != [] && Contiguous(last.run) && (front != [] ==> Breaks(front[|front| - 1], last))
  {
  }

  /** `next` does not go on where `last` ended, or the tail was dropped between them. */
  predicate Breaks(last: Segment, next: Segment)
    requires last.run != [] && next.run != []
  {
    next.reset || next.run[0].block.timestamp != EndOf(last)
  }

  lemma NextSegment(p: Packetizer, front: seq<Segment>, last: Segment)
    requires (forall s <- front :: s.run != []) && Accounted(p, front, RunSegments(p, front))
    requires last.run != [] && Contiguous(last.run)
    requires front != [] ==> Breaks(front[|front| - 1], last)
    ensures forall s <- front + [last] :: s.run != []
    ensures Accounted(p, front + [last], RunSegments(p, front + [last]))
  {
    var before := RunSegments(p, front);
    if front != [] {
      GapBreaksTail(before.packetizer, front[|front| - 1], last);
    }
    SegmentAlone(Begin(before.packetizer, last), last);
    AloneIsAccounted(p, front, before, last);
    assert (front + [last])[..|front|] == front;
  }

  lemma AloneIsAccounted(p: Packetizer, front: seq<Segment>, before: Output, last: Segment)
    requires (forall s <- front :: s.run != []) && last.run != [] && Accounted(p, front, before)
    requires Alone(Begin(before.packetizer, last), last)
    ensures var after := Run(Begin(before.packetizer, last), last.run);
            Accounted(p, front + [last], Output(after.packetizer, before.tried + after.tried))
  {
    var begun := Begin(before.packetizer, last);
    var after := Run(begun, last.run);
    assert (front + [last])[..|front|] == front;
    NumberAfterInParts(p.sequence, |before.tried|, |after.tried|);
    assert Packets(begun, Stream(last.run), last.run[0].block.timestamp)
        == Packets(p.(sequence := begun.sequence), Stream(last.run), last.run[0].block.timestamp);
  }

  /** The segment run from `p` comes out as its own stream, numbered on from `p`. */
  predicate Alone(p: Packetizer, segment: Segment)
    requires segment.run != []
  {
    var after := Run(p, segment.run);
    && after.tried == Packets(p, Stream(segment.run), segment.run[0].block.timestamp)
    && Valid(after.packetizer) && after.packetizer.duration == p.duration
    && after.packetizer.sequence == NumberAfter(p.sequence, |after.tried|)
    && TailEnds(after.packetizer, segment)
  }

  lemma SegmentAlone(p: Packetizer, segment: Segment)
    requires Valid(p) && segment.run != [] && Contiguous(segment.run)
    requires !Continues(p, segment.run[0].block)
    ensures Alone(p, segment)
  {
    ContiguousRun(p, segment.run);
    StreamEnds(segment.run);
    StreamIsEven(segment.run);
    RestEndsWithStream(Stream(segment.run), segment.run[0].block.timestamp, SamplesPerPacket(p.duration));
  }
}
