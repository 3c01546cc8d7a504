/** What the phone's PCM ring does, as functions of its value
    (android/app/src/main/rust/src/ring_buffer.rs). */
module RingModel {
  import opened Numbers

  datatype Ring = Ring(
    queue: seq<i16>,
    capacity: nat,
    underruns: u64,
    target: nat,
    buffering: bool)

  ghost predicate Valid(r: Ring) {
    0 < r.capacity && |r.queue| <= r.capacity && r.target <= r.capacity
  }

  function New(capacity: nat): Ring {
    Ring([], capacity, 0, 0, false)
  }

  /** The last `capacity` samples. */
  function Newest(samples: seq<i16>, capacity: nat): seq<i16> {
    if |samples| <= capacity then samples else samples[|samples| - capacity..]
  }

  function Write(r: Ring, samples: seq<i16>): Ring {
    r.(queue := Newest(r.queue + samples, r.capacity))
  }

  /** Writing in two parts is writing at once. */
  lemma WriteInParts(r: Ring, a: seq<i16>, b: seq<i16>)
    ensures Write(Write(r, a), b) == Write(r, a + b)
  {
  }

  function SetTarget(r: Ring, samples: nat): Ring {
    r.(target := Min(samples, r.capacity))
  }

  datatype ReadResult = ReadResult(ring: Ring, output: seq<i16>, actual: nat)

  /** While the prefill is incomplete a read plays silence and takes nothing. */
  predicate Waits(r: Ring, n: nat) {
    r.buffering && |r.queue| < Max(r.target, n)
  }

  function Read(r: Ring, n: nat): ReadResult {
    if Waits(r, n) then ReadResult(r, Zeros(n), 0) else
    var actual := Min(n, |r.queue|);
    ReadResult(
      r.(queue := r.queue[actual..],
         underruns := if actual < n then WrappingAdd64(r.underruns, 1) else r.underruns,
         buffering := actual < n && r.target > 0),
      r.queue[..actual] + Zeros(n - actual),
      actual)
  }

  /** The read ran dry, which is what the underrun counter counts. */
  predicate Underruns(r: Ring, n: nat) {
    !Waits(r, n) && |r.queue| < n
  }

  /** A write of whole frames leaves whole frames, unless it overflows a ring of odd
      capacity: dropping the oldest then splits a frame and swaps left and right. */
  lemma WriteKeepsFrames(r: Ring, samples: seq<i16>)
    requires Valid(r) && |r.queue| % 2 == 0 && |samples| % 2 == 0
    ensures |Write(r, samples).queue| % 2 == 0
            <==> r.capacity % 2 == 0 || |r.queue| + |samples| <= r.capacity
  {
  }
}
