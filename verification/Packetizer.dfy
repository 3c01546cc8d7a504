/** The server's packetizer (windows-server/src/network/server.rs). How each attempt to send
    ends is given by `answers`, one for each packet of the block. */
module Packetizer {
  import opened Numbers
  import opened AudioPackets
  import opened Model = PacketizerModel

  predicate Fits(ms: Duration, maxPayloadBytes: nat) {
    2 * SamplesPerPacket(ms) <= maxPayloadBytes
  }

  /** The largest packet duration whose payload fits what the connection carries. */
  method ChoosePacketDurationMs(maxPayloadBytes: nat) returns (chosen: Option<Duration>)
    ensures chosen.Some? ==> Fits(chosen.value, maxPayloadBytes)
    ensures forall ms: Duration :: Fits(ms, maxPayloadBytes) ==> chosen.Some? && ms <= chosen.value
  {
    var durations: seq<Duration> := [10, 5, 4, 2, 1];
    for j := 0 to |durations|
      invariant forall ms: Duration :: Fits(ms, maxPayloadBytes) ==> j == 0 || ms < durations[j - 1]
    {
      if Fits(durations[j], maxPayloadBytes) {
        return Some(durations[j]);
      }
    }
    return None;
  }

  class Packetizer {
    var sequence: u32
    const frameDurationMs: Duration
    const samplesPerPacket: nat
    var pendingTail: Option<Piece>

    ghost function View(): Model.Packetizer
      reads this
    {
      Model.Packetizer(sequence, frameDurationMs, pendingTail)
    }

    ghost predicate Valid()
      reads this
    {
      Model.Valid(View()) && samplesPerPacket == SamplesPerPacket(frameDurationMs)
    }

    constructor (frameDurationMs: Duration)
      ensures Valid() && View() == Model.Packetizer(0, frameDurationMs, None)
    {
      sequence, pendingTail := 0, None;
      this.frameDurationMs := frameDurationMs;
      samplesPerPacket := SamplesPerPacket(frameDurationMs);
    }

    method SendBlock(block: PcmBlock, enabled: bool, answers: nat -> Answer)
      returns (tried: seq<AudioPacket>, failed: bool)
      requires Valid() && IsBlock(block)
      modifies this
      ensures Sending(View(), tried, failed) == Model.SendBlock(old(View()), block, enabled, answers) && Valid()
    {
      if !enabled {
        return [], false;
      }
      if frameDurationMs == 4 {
        tried, failed := ForEachFourMsPacket(block, answers);
      } else {
        tried, failed := ForEachPacket(block, answers);
      }
    }

    /** Tries one packet; a packet that is tried takes the next number, sent or not. */
    method Offer(timestamp: u64, samples: seq<i16>, answer: Answer) returns (go: bool, tried: seq<AudioPacket>)
      modifies this`sequence
      ensures go <==> !Stops(answer)
      ensures answer.Off? ==> tried == [] && sequence == old(sequence)
      ensures !answer.Off? ==>
        && tried == [AudioPacket(old(sequence), timestamp, Payload(samples))]
        && sequence == WrappingAdd(old(sequence), 1)
    {
      if answer.Off? {
        return false, [];
      }
      var packet := AudioPacket(sequence, timestamp, Payload(samples));
      sequence := WrappingAdd(sequence, 1);
      return !answer.Failed?, [packet];
    }

    /** The first `k` of `pieces` were tried and went through. */
    ghost predicate Passed(pieces: seq<Piece>, first: u32, tried: seq<AudioPacket>, k: nat, answers: nat -> Answer)
      reads this
    {
      && k <= |pieces| && tried == Numbered(pieces[..k], first) && sequence == NumberAfter(first, k)
      && forall j: nat | j < k :: !Stops(answers(j))
    }

    /** Offers piece `k` of the block after the ones before it passed. */
    method OfferNext(ghost pieces: seq<Piece>, ghost first: u32, k: nat, timestamp: u64, samples: seq<i16>,
                     answers: nat -> Answer, before: seq<AudioPacket>)
      returns (go: bool, tried: seq<AudioPacket>)
      requires k < |pieces| && pieces[k] == Piece(timestamp, samples) && Passed(pieces, first, before, k, answers)
      modifies this`sequence
      ensures go ==> Passed(pieces, first, tried, k + 1, answers)
      ensures !go ==>
        && Reached(answers, |pieces|) == k && sequence == NumberAfter(first, Tried(answers, |pieces|))
        && tried == Numbered(pieces[..Tried(answers, |pieces|)], first)
        && (answers(k).Failed? <==> Tried(answers, |pieces|) > k)
      ensures go <==> !Stops(answers(k))
    {
      var attempt;
      go, attempt := Offer(timestamp, samples, answers(k));
      tried := before + attempt;
      assert pieces[..k + 1][..k] == pieces[..k];
      if !go {
        ReachedPart(answers, |pieces|, k);
      }
    }

    method ForEachPacket(block: PcmBlock, answers: nat -> Answer) returns (tried: seq<AudioPacket>, failed: bool)
      requires Valid() && IsBlock(block) && frameDurationMs != 4
      modifies this`sequence
      ensures Sending(View(), tried, failed) == Model.SendBlock(old(View()), block, true, answers)
    {
      ghost var first, pieces := sequence, Pieces(View(), block);
      BlocksLeaveTails(View(), block);
      tried, failed := [], false;
      BlockRuns(frameDurationMs);
      var count := |block.samples| / samplesPerPacket;
      for index := 0 to count
        invariant |pieces| == count && Passed(pieces, first, tried, index, answers)
        invariant pendingTail == old(pendingTail)
      {
        var go;
        go, tried := OfferRun(block, count, index, pieces, first, answers, tried);
        if !go {
          return tried, answers(index).Failed?;
        }
      }
      ReachedAll(answers, count);
      assert pieces[..count] == pieces;
    }

    /** The turn of the loop for one chunk of the block. */
    method OfferRun(block: PcmBlock, ghost count: nat, index: nat, ghost pieces: seq<Piece>, ghost first: u32,
                    answers: nat -> Answer, before: seq<AudioPacket>)
      returns (go: bool, tried: seq<AudioPacket>)
      requires IsBlock(block) && samplesPerPacket > 0 && samplesPerPacket % 2 == 0
      requires count * samplesPerPacket == BLOCK_SAMPLES
      requires pieces == Cut(block.samples, block.timestamp, samplesPerPacket)
      requires index < count && Passed(pieces, first, before, index, answers)
      modifies this`sequence
      ensures go ==> Passed(pieces, first, tried, index + 1, answers)
      ensures !go ==>
        && Reached(answers, |pieces|) == index && sequence == NumberAfter(first, Tried(answers, |pieces|))
        && tried == Numbered(pieces[..Tried(answers, |pieces|)], first)
        && (answers(index).Failed? <==> Tried(answers, |pieces|) > index)
      ensures go <==> !Stops(answers(index))
    {
      var offset := index * samplesPerPacket;
      ghost var _ := RunAt(block, samplesPerPacket, count, index);
      var timestamp := WrappingAdd64(block.timestamp, offset / 2);
      go, tried := OfferNext(pieces, first, index, timestamp, block.samples[offset..offset + samplesPerPacket],
                             answers, before);
    }

    /** 4 ms packets do not divide a block: 192 samples wait for the block after. */
    method ForEachFourMsPacket(block: PcmBlock, answers: nat -> Answer)
      returns (tried: seq<AudioPacket>, failed: bool)
      requires Valid() && IsBlock(block) && frameDurationMs == 4
      modifies this
      ensures Sending(View(), tried, failed) == Model.SendBlock(old(View()), block, true, answers) && Valid()
    {
      ghost var first, pieces, all := sequence, Pieces(View(), block), Joining(View(), block);
      BlocksLeaveTails(View(), block);
      JoiningIsBehind(View(), block);
      var go, offset, passed;
      go, tried, failed, offset, passed := OfferCarried(block, answers, all, pieces);
      if !go {
        return;
      }
      go, tried, failed, offset := OfferRest(block, answers, tried, offset, passed, all, pieces, first);
      if !go {
        return;
      }
      assert pieces[..|pieces|] == pieces;
      BehindRest(block, all, offset, |pieces|);
      KeepRest(block, offset);
    }

    /** The packet that the carried tail begins, if the block continues the tail. */
    method OfferCarried(block: PcmBlock, answers: nat -> Answer, ghost all: Piece, ghost pieces: seq<Piece>)
      returns (go: bool, tried: seq<AudioPacket>, failed: bool, offset: nat, passed: nat)
      requires Valid() && IsBlock(block) && frameDurationMs == 4
      requires all == Joining(View(), block) && pieces == Cut(all.samples, all.timestamp, FOUR_MS_PACKET_SAMPLES)
      requires |pieces| == PiecesOf(|all.samples|, 4)
      modifies this
      ensures pendingTail.None?
      ensures go ==>
        && Passed(pieces, old(sequence), tried, passed, answers) && offset <= BLOCK_SAMPLES
        && offset == FOUR_MS_PACKET_SAMPLES * passed - (|all.samples| - BLOCK_SAMPLES)
      ensures !go ==>
        && Reached(answers, |pieces|) < |pieces| && sequence == NumberAfter(old(sequence), Tried(answers, |pieces|))
        && tried == Numbered(pieces[..Tried(answers, |pieces|)], old(sequence))
        && (failed <==> Tried(answers, |pieces|) > Reached(answers, |pieces|))
    {
      go, tried, failed, offset, passed := true, [], false, 0, 0;
      if pendingTail.Some? {
        var tail := pendingTail.value;
        AdvanceBySmall(tail.timestamp, FOUR_MS_TAIL_SAMPLES);
        pendingTail := None;
        if block.timestamp == WrappingAdd64(tail.timestamp, FOUR_MS_TAIL_SAMPLES / 2) {
          var head := FOUR_MS_PACKET_SAMPLES - FOUR_MS_TAIL_SAMPLES;
          CutAt(all.samples, all.timestamp, FOUR_MS_PACKET_SAMPLES, 0, 0);
          go, tried := OfferNext(pieces, sequence, 0, tail.timestamp, tail.samples + block.samples[..head],
                                 answers, []);
          failed := answers(0).Failed?;
          offset, passed := head, 1;
        }
      }
    }

    /** What does not fill a packet waits for the next block. */
    method KeepRest(block: PcmBlock, offset: nat)
      requires IsBlock(block) && offset <= BLOCK_SAMPLES && pendingTail.None?
      modifies this`pendingTail
      ensures pendingTail ==
        if offset == BLOCK_SAMPLES then None else Some(Piece(Advance(block.timestamp, offset), block.samples[offset..]))
    {
      var remaining := |block.samples| - offset;
      if remaining == 0 {
        return;
      }
      AdvanceBySmall(block.timestamp, offset);
      pendingTail := Some(Piece(WrappingAdd64(block.timestamp, offset / 2), block.samples[offset..]));
    }

    /** The loop over the whole packets from `offset` on; `completed` is false where an
        answer stopped it. */
    method OfferRest(block: PcmBlock, answers: nat -> Answer, before: seq<AudioPacket>, start: nat,
                     passed: nat, ghost all: Piece, ghost pieces: seq<Piece>, ghost first: u32)
      returns (completed: bool, tried: seq<AudioPacket>, failed: bool, offset: nat)
      requires IsBlock(block) && Behind(block, all) && pieces == Cut(all.samples, all.timestamp, FOUR_MS_PACKET_SAMPLES)
      requires |pieces| == PiecesOf(|all.samples|, 4)
      requires start == FOUR_MS_PACKET_SAMPLES * passed - (|all.samples| - BLOCK_SAMPLES)
      requires start <= BLOCK_SAMPLES && Passed(pieces, first, before, passed, answers)
      modifies this`sequence
      ensures completed ==>
        && Passed(pieces, first, tried, |pieces|, answers) && !failed && offset <= BLOCK_SAMPLES
        && offset == FOUR_MS_PACKET_SAMPLES * |pieces| - (|all.samples| - BLOCK_SAMPLES)
        && Reached(answers, |pieces|) == Tried(answers, |pieces|) == |pieces|
      ensures !completed ==>
        && Reached(answers, |pieces|) < |pieces| && sequence == NumberAfter(first, Tried(answers, |pieces|))
        && tried == Numbered(pieces[..Tried(answers, |pieces|)], first)
        && (failed <==> Tried(answers, |pieces|) > Reached(answers, |pieces|))
    {
      tried, failed, offset := before, false, start;
      var k := passed;
      while offset + FOUR_MS_PACKET_SAMPLES <= |block.samples|
        invariant offset == FOUR_MS_PACKET_SAMPLES * k - (|all.samples| - BLOCK_SAMPLES) && offset <= BLOCK_SAMPLES
        invariant Passed(pieces, first, tried, k, answers)
      {
        BehindAt(block, all, offset, k);
        AdvanceBySmall(block.timestamp, offset);
        var timestamp := WrappingAdd64(block.timestamp, offset / 2);
        var go;
        var answer := answers(k);
        go, tried := OfferNext(pieces, first, k, timestamp, block.samples[offset..offset + FOUR_MS_PACKET_SAMPLES],
                               answers, tried);
        if !go {
          return false, tried, answer.Failed?, offset;
        }
        offset := offset + FOUR_MS_PACKET_SAMPLES;
        k := k + 1;
      }
      ReachedAll(answers, k);
      return true, tried, false, offset;
    }
  }
}
