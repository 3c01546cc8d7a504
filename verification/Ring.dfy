/** The phone's bounded PCM ring (android/app/src/main/rust/src/ring_buffer.rs), each public
    operation taken as one step; ConcurrentRing takes pushes and pops apart. */
module Ring {
  import opened Numbers
  import opened AudioPackets
  import opened Model = RingModel

  class PcmRingBuffer {
    var queue: seq<i16>
    const capacity: nat
    var underruns: u64
    var playbackTarget: nat
    var buffering: bool

    ghost function View(): Ring
      reads this
    {
      Ring(queue, capacity, underruns, playbackTarget, buffering)
    }

    /** The queue refuses to hold nothing. */
    constructor (capacity: nat)
      requires capacity > 0
      ensures View() == New(capacity) && Model.Valid(View())
    {
      this.capacity := capacity;
      queue, underruns, playbackTarget, buffering := [], 0, 0, false;
    }

    method PushLatest(sample: i16)
      requires Model.Valid(View())
      modifies this`queue
      ensures View() == Write(old(View()), [sample])
    {
      if |queue| < capacity {
        queue := queue + [sample];
      } else {
        assert (queue + [sample])[1..] == queue[1..] + [sample];
        queue := queue[1..];
        queue := queue + [sample];
      }
    }

    method WritePcmLe(pcm: seq<u8>)
      requires Model.Valid(View())
      modifies this`queue
      ensures View() == Write(old(View()), Samples(pcm)) && Model.Valid(View())
    {
      var samples := |pcm| / 2;
      assert Samples(pcm)[..samples] == Samples(pcm);
      for j := 0 to samples
        invariant View() == Write(old(View()), Samples(pcm)[..j]) && Model.Valid(View())
      {
        PushLatest(FromLittleEndian(pcm[2 * j], pcm[2 * j + 1]));
        WriteInParts(old(View()), Samples(pcm)[..j], [Samples(pcm)[j]]);
        assert Samples(pcm)[..j + 1] == Samples(pcm)[..j] + [Samples(pcm)[j]];
      }
    }

    method WriteSilence(samples: nat)
      requires Model.Valid(View())
      modifies this`queue
      ensures View() == Write(old(View()), Zeros(samples)) && Model.Valid(View())
    {
      for j := 0 to samples
        invariant View() == Write(old(View()), Zeros(j)) && Model.Valid(View())
      {
        PushLatest(0);
        WriteInParts(old(View()), Zeros(j), [0]);
        assert Zeros(j + 1) == Zeros(j) + [0];
      }
    }

    method SetPlaybackTarget(samples: nat)
      modifies this`playbackTarget
      ensures View() == SetTarget(old(View()), samples)
    {
      playbackTarget := Min(samples, capacity);
    }

    method BeginBuffering()
      modifies this`buffering
      ensures View() == old(View()).(buffering := true)
    {
      buffering := true;
    }

    method ReadInto(output: array<i16>) returns (actual: nat)
      requires Model.Valid(View())
      modifies this`queue, this`underruns, this`buffering, output
      ensures ReadResult(View(), output[..], actual) == Read(old(View()), output.Length)
      ensures Model.Valid(View())
    {
      var length := output.Length;
      if buffering {
        var required := Max(playbackTarget, length);
        if |queue| < required {
          Silence(output);
          return 0;
        }
        buffering := false;
      }
      actual := PopInto(output);
      if actual != length {
        underruns := WrappingAdd64(underruns, 1);
        if playbackTarget > 0 {
          BeginBuffering();
        }
      }
    }

    /** The pop loop: what is queued, oldest first, then zeros. */
    method PopInto(output: array<i16>) returns (actual: nat)
      modifies this`queue, output
      ensures actual == Min(output.Length, |old(queue)|) && queue == old(queue)[actual..]
      ensures output[..] == old(queue)[..actual] + Zeros(output.Length - actual)
    {
      actual := 0;
      for j := 0 to output.Length
        invariant actual == Min(j, |old(queue)|) && queue == old(queue)[actual..]
        invariant output[..j] == old(queue)[..actual] + Zeros(j - actual)
      {
        if queue != [] {
          output[j] := queue[0];
          queue := queue[1..];
          actual := actual + 1;
        } else {
          output[j] := 0;
          assert Zeros(j + 1 - actual) == Zeros(j - actual) + [0];
        }
        assert output[..j + 1] == output[..j] + [output[j]];
      }
      assert output[..] == output[..output.Length];
    }

    /** `output.fill(0)`. */
    static method Silence(output: array<i16>)
      modifies output
      ensures output[..] == Zeros(output.Length)
    {
      for j := 0 to output.Length
        invariant output[..j] == Zeros(j)
      {
        output[j] := 0;
        assert output[..j + 1] == output[..j] + [0];
        assert Zeros(j + 1) == Zeros(j) + [0];
      }
      assert output[..] == output[..output.Length];
    }

    method Clear()
      modifies this`queue
      ensures View() == old(View()).(queue := [])
    {
      while queue != []
        decreases |queue|
      {
        queue := queue[1..];
      }
    }
  }
}
