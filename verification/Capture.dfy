/** How the server's capture thread turns samples into blocks
    (windows-server/src/audio/capture.rs). */
module Capture {
  import opened Numbers
  import opened PacketizerModel

  /** The last `capacity` blocks. */
  function Latest(blocks: seq<PcmBlock>, capacity: nat): seq<PcmBlock> {
    if |blocks| <= capacity then blocks else blocks[|blocks| - capacity..]
  }

  lemma LatestInParts(a: seq<PcmBlock>, b: seq<PcmBlock>, capacity: nat)
    ensures Latest(Latest(a, capacity) + b, capacity) == Latest(a + b, capacity)
  {
  }

  /** The bounded queue between capture and senders. */
  class BlockQueue {
    var blocks: seq<PcmBlock>
    const capacity: nat

    ghost predicate Valid()
      reads this
    {
      0 < capacity && |blocks| <= capacity
    }

    constructor (capacity: nat)
      requires capacity > 0
      ensures Valid() && blocks == [] && this.capacity == capacity
    {
      blocks := [];
      this.capacity := capacity;
    }

    method TrySend(block: PcmBlock) returns (sent: bool)
      requires Valid()
      modifies this
      ensures sent <==> |old(blocks)| < capacity
      ensures blocks == if sent then old(blocks) + [block] else old(blocks)
    {
      sent := |blocks| < capacity;
      if sent {
        blocks := blocks + [block];
      }
    }

    method TryReceive() returns (block: Option<PcmBlock>)
      modifies this
      ensures old(blocks) == [] ==> block.None? && blocks == []
      ensures old(blocks) != [] ==> block == Some(old(blocks)[0]) && blocks == old(blocks)[1..]
    {
      if blocks == [] {
        return None;
      }
      block := Some(blocks[0]);
      blocks := blocks[1..];
    }
  }

  /** A full queue gives up its oldest block, never the new one. */
  method EnqueueLatest(queue: BlockQueue, block: PcmBlock) returns (kept: bool)
    requires queue.Valid()
    modifies queue
    ensures queue.Valid() && kept
    ensures queue.blocks == Latest(old(queue.blocks) + [block], queue.capacity)
  {
    kept := queue.TrySend(block);
    if !kept {
      assert (queue.blocks + [block])[1..] == queue.blocks[1..] + [block];
      var _ := queue.TryReceive();
      kept := queue.TrySend(block);
    }
  }

  class BlockAssembler {
    var timestamp: u64
    var filled: nat
    const samples: array<i16>

    ghost predicate Valid()
      reads this
    {
      samples.Length == BLOCK_SAMPLES && filled < BLOCK_SAMPLES
    }

    /** The samples that do not fill a block yet. */
    ghost function Pending(): Piece
      requires Valid()
      reads this, samples
    {
      Piece(timestamp, samples[..filled])
    }

    constructor ()
      ensures Valid() && fresh(samples) && Pending() == Piece(0, [])
    {
      timestamp, filled := 0, 0;
      samples := new i16[BLOCK_SAMPLES](_ => 0);
    }

    /** The blocks that `more` samples complete. */
    ghost function Completed(more: seq<i16>): seq<PcmBlock>
      requires Valid()
      reads this, samples
    {
      Cut(Pending().samples + more, timestamp, BLOCK_SAMPLES)
    }

    ghost function Remaining(more: seq<i16>): Piece
      requires Valid()
      reads this, samples
    {
      Rest(Pending().samples + more, timestamp, BLOCK_SAMPLES)
    }

    method PushOne(sample: i16, queue: BlockQueue)
      requires Valid() && queue.Valid()
      modifies this, samples, queue
      ensures Valid() && queue.Valid()
      ensures Pending() == old(Remaining([sample]))
      ensures queue.blocks == Latest(old(queue.blocks) + old(Completed([sample])), queue.capacity)
    {
      ghost var all := Pending().samples + [sample];
      ghost var before := queue.blocks;
      samples[filled] := sample;
      filled := filled + 1;
      assert samples[..filled] == all;
      if filled != BLOCK_SAMPLES {
        assert before + [] == before;
        return;
      }
      var block := Piece(timestamp, samples[..]);
      assert samples[..] == samples[..filled];
      assert all[..BLOCK_SAMPLES] == all && all[BLOCK_SAMPLES..] == [];
      AdvanceBySmall(timestamp, BLOCK_SAMPLES);
      assert Cut(all, timestamp, BLOCK_SAMPLES) == [block];
      assert Rest(all, timestamp, BLOCK_SAMPLES) == Rest([], Advance(timestamp, BLOCK_SAMPLES), BLOCK_SAMPLES);
      timestamp := WrappingAdd64(timestamp, BLOCK_SAMPLES / 2);
      filled := 0;
      var _ := EnqueueLatest(queue, block);
    }

    /** The capture hands over any number of samples at a time; the blocks that reach the
        queue are those of the samples as one stream. */
    method PushSamples(more: seq<i16>, queue: BlockQueue)
      requires Valid() && queue.Valid()
      modifies this, samples, queue
      ensures Valid() && queue.Valid()
      ensures Pending() == old(Remaining(more))
      ensures queue.blocks == Latest(old(queue.blocks) + old(Completed(more)), queue.capacity)
    {
      ghost var first, blocks := Pending(), queue.blocks;
      assert more[..0] == [] && first.samples + [] == first.samples && blocks + [] == blocks;
      for j := 0 to |more|
        invariant Valid() && queue.Valid()
        invariant Pending() == Rest(first.samples + more[..j], first.timestamp, BLOCK_SAMPLES)
        invariant queue.blocks
          == Latest(blocks + Cut(first.samples + more[..j], first.timestamp, BLOCK_SAMPLES), queue.capacity)
      {
        OneMore(first, more, j, blocks, queue.capacity);
        PushOne(more[j], queue);
      }
      assert more[..|more|] == more;
    }

    method PushSilence(count: nat, queue: BlockQueue)
      requires Valid() && queue.Valid()
      modifies this, samples, queue
      ensures Valid() && queue.Valid()
      ensures Pending() == old(Remaining(Zeros(count)))
      ensures queue.blocks == Latest(old(queue.blocks) + old(Completed(Zeros(count))), queue.capacity)
    {
      ghost var first, blocks, more := Pending(), queue.blocks, Zeros(count);
      assert more[..0] == [] && first.samples + [] == first.samples && blocks + [] == blocks;
      for j := 0 to count
        invariant Valid() && queue.Valid()
        invariant Pending() == Rest(first.samples + more[..j], first.timestamp, BLOCK_SAMPLES)
        invariant queue.blocks
          == Latest(blocks + Cut(first.samples + more[..j], first.timestamp, BLOCK_SAMPLES), queue.capacity)
      {
        OneMore(first, more, j, blocks, queue.capacity);
        PushOne(0, queue);
      }
      assert more[..count] == more;
    }
  }

  /** One sample more: what the samples so far left over, and the block it may complete. */
  lemma OneMore(first: Piece, more: seq<i16>, j: nat, blocks: seq<PcmBlock>, capacity: nat)
    requires j < |more|
    ensures var all, longer := first.samples + more[..j], first.samples + more[..j + 1];
            var rest := Rest(all, first.timestamp, BLOCK_SAMPLES);
            var next := Cut(rest.samples + [more[j]], rest.timestamp, BLOCK_SAMPLES);
            && Rest(rest.samples + [more[j]], rest.timestamp, BLOCK_SAMPLES)
               == Rest(longer, first.timestamp, BLOCK_SAMPLES)
            && Latest(Latest(blocks + Cut(all, first.timestamp, BLOCK_SAMPLES), capacity) + next, capacity)
               == Latest(blocks + Cut(longer, first.timestamp, BLOCK_SAMPLES), capacity)
  {
    var all, longer := first.samples + more[..j], first.samples + more[..j + 1];
    assert longer == all + [more[j]];
    CutInParts(all, [more[j]], first.timestamp, BLOCK_SAMPLES);
    var cut, rest := Cut(all, first.timestamp, BLOCK_SAMPLES), Rest(all, first.timestamp, BLOCK_SAMPLES);
    var next := Cut(rest.samples + [more[j]], rest.timestamp, BLOCK_SAMPLES);
    LatestInParts(blocks + cut, next, capacity);
    assert blocks + cut + next == blocks + (cut + next);
  }

  /** The blocks of one capture follow each other without a gap. */
  lemma {:induction false} BlocksAreContiguous(samples: seq<i16>, timestamp: u64, k: nat)
    requires k + 1 < |Cut(samples, timestamp, BLOCK_SAMPLES)|
    ensures var blocks := Cut(samples, timestamp, BLOCK_SAMPLES);
            && |blocks[k].samples| == |blocks[k + 1].samples| == BLOCK_SAMPLES
            && blocks[k + 1].timestamp == Advance(blocks[k].timestamp, BLOCK_SAMPLES)
  {
    if k > 0 {
      BlocksAreContiguous(samples[BLOCK_SAMPLES..], Advance(timestamp, BLOCK_SAMPLES), k - 1);
    }
  }
}
