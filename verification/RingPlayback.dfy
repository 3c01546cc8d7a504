/** When the phone's ring plays and what it then plays
    (android/app/src/main/rust/src/ring_buffer.rs:31-103). */
module RingPlayback {
  import opened Numbers
  import opened RingModel

  /** The ring may play `n` samples: it is not refilling, or holds both its playback target
      and all that is asked for. */
  predicate MayPlay(r: Ring, n: nat) {
    !r.buffering || (|r.queue| >= r.target && |r.queue| >= n)
  }

  /** A read that may play puts out the oldest samples, in order and as far as they go, then
      zeros, and takes exactly them; running dry is counted and starts a refill. Any other
      read puts out zeros and leaves the ring alone. */
  lemma ReadPlaysExactly(r: Ring, n: nat)
    ensures var d := Read(r, n);
            if MayPlay(r, n) then
              && d.actual == (if |r.queue| < n then |r.queue| else n) && |d.output| == n
              && r.queue == d.output[..d.actual] + d.ring.queue
              && (forall j | d.actual <= j < n :: d.output[j] == 0)
              && d.ring == r.(
                   queue := d.ring.queue,
                   buffering := |r.queue| < n && r.target != 0,
                   underruns := WrappingAdd64(r.underruns, if |r.queue| < n then 1 else 0))
            else d.actual == 0 && d.ring == r && |d.output| == n && forall j | 0 <= j < n :: d.output[j] == 0
  {
  }

  // ----- refilling -----

  /** Samples written one stretch after the other. */
  function WriteAll(r: Ring, stretches: seq<seq<i16>>): Ring {
    if stretches == [] then r
    else Write(WriteAll(r, stretches[..|stretches| - 1]), stretches[|stretches| - 1])
  }

  function Joined(stretches: seq<seq<i16>>): seq<i16> {
    if stretches == [] then [] else Joined(stretches[..|stretches| - 1]) + stretches[|stretches| - 1]
  }

  lemma {:induction false} WrittenAtOnce(r: Ring, stretches: seq<seq<i16>>)
    requires Valid(r)
    ensures WriteAll(r, stretches) == r.(queue := Newest(r.queue + Joined(stretches), r.capacity))
  {
    if stretches == [] {
      assert r.queue + [] == r.queue;
    } else {
      var front, last := stretches[..|stretches| - 1], stretches[|stretches| - 1];
      WrittenAtOnce(r, front);
      WriteInParts(r, Joined(front), last);
    }
  }

  /** A ring that refills stays silent until its target and the whole read are there, and then
      plays at once: of all that was queued or written, the oldest that the ring could hold. */
  lemma RefilledRingPlays(r: Ring, stretches: seq<seq<i16>>, n: nat)
    requires Valid(r) && r.buffering && 0 < n <= r.capacity
    ensures var all := r.queue + Joined(stretches);
            var kept := if |all| <= r.capacity then all else all[|all| - r.capacity..];
            var d := Read(WriteAll(r, stretches), n);
            && (d.actual > 0 <==> |all| >= r.target && |all| >= n)
            && (d.actual > 0 ==>
                  d.output == kept[..n] && d.ring.queue == kept[n..] && !d.ring.buffering
                  && d.ring.underruns == r.underruns)
            && (d.actual == 0 ==> d.output == Zeros(n) && d.ring.queue == kept && d.ring.buffering)
  {
    WrittenAtOnce(r, stretches);
    ReadPlaysExactly(WriteAll(r, stretches), n);
  }

  // ----- what is played over a run -----

  datatype Access = Writes(samples: seq<i16>) | Reads(n: nat)

  datatype Heard = Heard(ring: Ring, written: seq<i16>, played: seq<i16>)

  function Next(h: Heard, access: Access): Heard {
    match access
    case Writes(samples) => Heard(Write(h.ring, samples), h.written + samples, h.played)
    case Reads(n) =>
      var d := Read(h.ring, n);
      Heard(d.ring, h.written, h.played + d.output[..Min(d.actual, |d.output|)])
  }

  function Run(h: Heard, accesses: seq<Access>): Heard {
    if accesses == [] then h else Next(Run(h, accesses[..|accesses| - 1]), accesses[|accesses| - 1])
  }

  /** Nothing was dropped: each write finds room for all it brings. */
  ghost predicate Fits(r: Ring, accesses: seq<Access>) {
    forall k | 0 <= k < |accesses| && accesses[k].Writes? ::
      |Run(Heard(r, [], []), accesses[..k]).ring.queue| + |accesses[k].samples| <= r.capacity
  }

  /** While nothing overflows, what was played and what waits is what waited and was written,
      every sample once and in order. */
  lemma {:induction false} PlayedIsWritten(r: Ring, accesses: seq<Access>)
    requires Valid(r) && Fits(r, accesses)
    ensures var h := Run(Heard(r, [], []), accesses);
            && Valid(h.ring) && h.ring.capacity == r.capacity && h.ring.target == r.target
            && h.played + h.ring.queue == r.queue + h.written
  {
    if accesses == [] {
      assert [] + r.queue == r.queue + [];
    } else {
      var n := |accesses| - 1;
      var front, last := accesses[..n], accesses[n];
      assert forall k | 0 <= k < n :: front[..k] == accesses[..k];
      PlayedIsWritten(r, front);
      var h := Run(Heard(r, [], []), front);
      match last {
        case Writes(samples) =>
          assert h.played + (h.ring.queue + samples) == (h.played + h.ring.queue) + samples;
          assert r.queue + h.written + samples == r.queue + (h.written + samples);
        case Reads(m) =>
          ReadPlaysExactly(h.ring, m);
          ReadTakesOldest(h, m);
      }
    }
  }

  lemma ReadTakesOldest(h: Heard, n: nat)
    ensures Next(h, Reads(n)).played + Next(h, Reads(n)).ring.queue == h.played + h.ring.queue
  {
    var d := Read(h.ring, n);
    ReadPlaysExactly(h.ring, n);
    var heard := d.output[..Min(d.actual, |d.output|)];
    assert h.played + (heard + d.ring.queue) == h.played + heard + d.ring.queue;
    assert h.played + [] == h.played;
  }
}
