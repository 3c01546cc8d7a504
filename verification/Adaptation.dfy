/** How the pipeline adapts to stutter. */
module Adaptation {
  import opened Numbers
  import opened AudioPackets
  import JitterModel
  import RingModel
  import opened ReceiverModel
  import opened ReceiverRuns

  /** What the adaptation looks at and sets. */
  datatype Dial = Dial(target: nat, cooldown: nat, playback: nat, buffering: bool, queued: nat)

  function Reading(p: Pipeline): Dial {
    Dial(p.jitter.target, p.cooldown, p.ring.target, p.ring.buffering, |p.ring.queue|)
  }

  /** The dials before the first event and after each. */
  ghost function Trace(p: Pipeline, events: seq<Event>): (trace: seq<Dial>)
    requires Valid(p)
    ensures |trace| == |events| + 1 && trace[0] == Reading(p)
    decreases |events|
  {
    if events == [] then [Reading(p)] else
    NextKeepsValid(p, events[0]);
    [Reading(p)] + Trace(Next(p, events[0]), events[1..])
  }

  ghost predicate Bounded(f: Format, capacity: nat, d: Dial) {
    && d.target <= f.maximum
    && d.playback == Min(TargetSamples(d.target, f.packetSamples), capacity)
    && d.playback > 0
  }

  ghost predicate Waits(d: Dial, n: nat) {
    d.buffering && d.queued < Max(d.playback, n)
  }

  ghost predicate Underruns(d: Dial, n: nat) {
    !Waits(d, n) && d.queued < n
  }

  /** What one event does to the dials. */
  ghost predicate Moves(f: Format, a: Dial, event: Event, b: Dial) {
    && a.target <= b.target
    // a raise needs the cooldown to have run out, and starts it over
    && (a.target < b.target ==> a.cooldown == 0 && b.cooldown == f.cooldown)
    // only a packet of the right size runs the cooldown down, by one
    && b.cooldown >= a.cooldown - (if Delivers(f, event) then 1 else 0)
    // only a read of a refilled ring ends the buffering, and an underrun starts it
    && (a.buffering && !b.buffering ==> event.Read? && a.queued >= Max(a.playback, event.n))
    && (event.Read? && Underruns(a, event.n) ==> b.buffering)
    // a restart empties the ring, refills it and starts the cooldown over
    && (event.Restart? ==> b.buffering && b.queued == 0 && b.cooldown == f.cooldown && b.target == a.target)
    // a read that need not wait takes what it plays, and buffering follows exactly if it ran dry
    && (event.Read? && Waits(a, event.n) ==> b.buffering && b.queued == a.queued)
    && (event.Read? && !Waits(a, event.n) ==>
          b.queued == a.queued - Min(a.queued, event.n) && (b.buffering <==> Underruns(a, event.n)))
  }

  lemma PlaybackIsPositive(packets: nat, packetSamples: nat, capacity: nat)
    requires packets >= 1 && packetSamples >= 1 && capacity >= 1
    ensures Min(TargetSamples(packets, packetSamples), capacity) > 0
  {
  }

  lemma ValidIsBounded(p: Pipeline)
    requires Valid(p)
    ensures Bounded(p.format, p.ring.capacity, Reading(p))
  {
    PlaybackIsPositive(p.jitter.target, p.format.packetSamples, p.ring.capacity);
  }

  lemma NextMoves(p: Pipeline, event: Event)
    requires Valid(p)
    ensures Moves(p.format, Reading(p), event, Reading(Next(p, event)))
  {
    ValidIsBounded(p);
    if event.Arrive? {
      JitterModel.PushKeepsValid(p.jitter, event.packet);
    }
  }

  ghost predicate MovesAt(f: Format, trace: seq<Dial>, events: seq<Event>, k: nat)
    requires |trace| == |events| + 1 && k < |events|
  {
    Moves(f, trace[k], events[k], trace[k + 1])
  }

  lemma {:induction false} TraceMoves(p: Pipeline, events: seq<Event>)
    requires Valid(p)
    ensures forall k | 0 <= k < |events| :: MovesAt(p.format, Trace(p, events), events, k)
    ensures forall d <- Trace(p, events) :: Bounded(p.format, p.ring.capacity, d)
    decreases |events|
  {
    ValidIsBounded(p);
    if events != [] {
      NextMoves(p, events[0]);
      NextKeepsValid(p, events[0]);
      TraceMoves(Next(p, events[0]), events[1..]);
      var rest := Trace(Next(p, events[0]), events[1..]);
      assert Trace(p, events) == [Reading(p)] + rest;
      Prepend(p.format, Reading(p), events, rest);
    }
  }

  lemma Prepend(f: Format, d: Dial, events: seq<Event>, rest: seq<Dial>)
    requires |rest| == |events| && events != [] && Moves(f, d, events[0], rest[0])
    requires forall k | 0 <= k < |events[1..]| :: MovesAt(f, rest, events[1..], k)
    ensures forall k | 0 <= k < |events| :: MovesAt(f, [d] + rest, events, k)
  {
    var trace := [d] + rest;
    forall k | 0 <= k < |events| ensures MovesAt(f, trace, events, k) {
      if k > 0 {
        assert MovesAt(f, rest, events[1..], k - 1);
      }
    }
  }

  lemma {:induction false} TargetsGrow(f: Format, trace: seq<Dial>, events: seq<Event>, j: nat, k: nat)
    requires |trace| == |events| + 1 && j <= k <= |events|
    requires forall k | 0 <= k < |events| :: MovesAt(f, trace, events, k)
    ensures trace[j].target <= trace[k].target
    decreases k
  {
    if j < k {
      TargetsGrow(f, trace, events, j, k - 1);
      assert MovesAt(f, trace, events, k - 1);
    }
  }

  /** In a stream with frames of `frameMs`, whatever arrives: the jitter target never
      shrinks and never passes 100 ms in whole packets, and the ring prefills exactly that
      target as far as it can hold it. */
  lemma TargetsAreBounded(frameMs: FrameMs, ring: RingModel.Ring, events: seq<Event>, j: nat, k: nat)
    requires RingModel.Valid(ring) && j <= k <= |events|
    ensures Valid(New(FormatOf(frameMs), ring))
    ensures var trace := Trace(New(FormatOf(frameMs), ring), events);
            && trace[j].target <= trace[k].target <= Max(DivCeil(MAX_JITTER_BUFFER_MS, frameMs), 1)
            && trace[k].playback == Min(trace[k].target * (96 * frameMs), ring.capacity)
  {
    var f := FormatOf(frameMs);
    FormatsAreSized(frameMs);
    NewIsValid(f, ring);
    TraceMoves(New(f, ring), events);
    var trace := Trace(New(f, ring), events);
    TargetsGrow(f, trace, events, j, k);
    assert trace[k] in trace && f.packetSamples == 96 * frameMs;
    assert TargetSamples(trace[k].target, f.packetSamples) == trace[k].target * (96 * frameMs);
  }

  /** The packets of the right size among events `i` to `k`. */
  ghost function PacketsBetween(f: Format, events: seq<Event>, i: nat, k: nat): nat
    requires i <= k <= |events|
    decreases k
  {
    if i == k then 0 else
    PacketsBetween(f, events, i, k - 1) + if Delivers(f, events[k - 1]) then 1 else 0
  }

  lemma {:induction false} CooldownRunsDown(f: Format, trace: seq<Dial>, events: seq<Event>, i: nat, k: nat)
    requires |trace| == |events| + 1 && i < k <= |events| && trace[i].target < trace[i + 1].target
    requires forall k | 0 <= k < |events| :: MovesAt(f, trace, events, k)
    ensures trace[k].cooldown + PacketsBetween(f, events, i + 1, k) >= f.cooldown
    decreases k
  {
    assert MovesAt(f, trace, events, k - 1);
    if k > i + 1 {
      CooldownRunsDown(f, trace, events, i, k - 1);
    }
  }

  /** Between two raises of the target lies a full cooldown of packets. */
  lemma RaisesAreSpaced(p: Pipeline, events: seq<Event>, trace: seq<Dial>, i: nat, j: nat)
    requires Valid(p) && trace == Trace(p, events) && i < j < |events|
    requires trace[i].target < trace[i + 1].target && trace[j].target < trace[j + 1].target
    ensures PacketsBetween(p.format, events, i + 1, j) >= p.format.cooldown
  {
    TraceMoves(p, events);
    CooldownRunsDown(p.format, trace, events, i, j);
    assert MovesAt(p.format, trace, events, j);
  }

  lemma {:induction false} RestartCooldownRunsDown(f: Format, trace: seq<Dial>, events: seq<Event>, i: nat, k: nat)
    requires |trace| == |events| + 1 && i < k <= |events| && events[i].Restart?
    requires forall k | 0 <= k < |events| :: MovesAt(f, trace, events, k)
    ensures trace[k].cooldown + PacketsBetween(f, events, i + 1, k) >= f.cooldown
    decreases k
  {
    assert MovesAt(f, trace, events, k - 1);
    if k > i + 1 {
      RestartCooldownRunsDown(f, trace, events, i, k - 1);
    }
  }

  /** So it does between a restart and the next raise. */
  lemma RestartDelaysRaise(p: Pipeline, events: seq<Event>, trace: seq<Dial>, i: nat, j: nat)
    requires Valid(p) && trace == Trace(p, events) && i < j < |events|
    requires events[i].Restart? && trace[j].target < trace[j + 1].target
    ensures PacketsBetween(p.format, events, i + 1, j) >= p.format.cooldown
  {
    TraceMoves(p, events);
    RestartCooldownRunsDown(p.format, trace, events, i, j);
    assert MovesAt(p.format, trace, events, j);
  }

  /** Read `k` runs dry. */
  ghost predicate UnderrunAt(trace: seq<Dial>, events: seq<Event>, k: nat)
    requires |trace| == |events| + 1 && k < |events|
  {
    events[k].Read? && Underruns(trace[k], events[k].n)
  }

  /** Read `k` ends the buffering: the ring holds the playback target and all that is read. */
  ghost predicate RefilledAt(trace: seq<Dial>, events: seq<Event>, k: nat)
    requires |trace| == |events| + 1 && k < |events|
  {
    events[k].Read? && trace[k].buffering && trace[k].queued >= Max(trace[k].playback, events[k].n)
  }

  lemma {:induction false} BufferingLasts(f: Format, trace: seq<Dial>, events: seq<Event>, i: nat, j: nat)
    requires |trace| == |events| + 1 && i < j < |events| && UnderrunAt(trace, events, i)
    requires forall k | 0 <= k < |events| :: MovesAt(f, trace, events, k)
    ensures trace[j].buffering || exists k :: i < k < j && RefilledAt(trace, events, k)
    decreases j
  {
    assert MovesAt(f, trace, events, j - 1);
    if j > i + 1 {
      BufferingLasts(f, trace, events, i, j - 1);
      assert trace[j - 1].buffering && !trace[j].buffering ==> RefilledAt(trace, events, j - 1);
    }
  }

  lemma {:induction false} PrefillLasts(f: Format, trace: seq<Dial>, events: seq<Event>, i: nat, j: nat)
    requires |trace| == |events| + 1 && i <= j <= |events| && trace[i].buffering
    requires forall k | 0 <= k < |events| :: MovesAt(f, trace, events, k)
    ensures trace[j].buffering || exists k :: i <= k < j && RefilledAt(trace, events, k)
    decreases j
  {
    if j > i {
      assert MovesAt(f, trace, events, j - 1);
      PrefillLasts(f, trace, events, i, j - 1);
      assert trace[j - 1].buffering && !trace[j].buffering ==> RefilledAt(trace, events, j - 1);
    }
  }

  /** A new session, and one that restarts, plays nothing before the ring holds its playback
      target and all that is read. */
  lemma PlaybackIsPrefilled(frameMs: FrameMs, ring: RingModel.Ring, events: seq<Event>, i: nat, k: nat)
    requires RingModel.Valid(ring) && i <= k < |events| && (i == 0 || events[i - 1].Restart?)
    ensures Valid(New(FormatOf(frameMs), ring))
    ensures var trace := Trace(New(FormatOf(frameMs), ring), events);
            events[k].Read? && trace[k + 1].queued < trace[k].queued ==>
              exists j :: i <= j <= k && RefilledAt(trace, events, j)
  {
    var p := New(FormatOf(frameMs), ring);
    FormatsAreSized(frameMs);
    NewIsValid(FormatOf(frameMs), ring);
    TraceMoves(p, events);
    var trace := Trace(p, events);
    assert i > 0 ==> MovesAt(p.format, trace, events, i - 1);
    PrefillLasts(p.format, trace, events, i, k);
    assert MovesAt(p.format, trace, events, k);
    if events[k].Read? && trace[k + 1].queued < trace[k].queued && trace[k].buffering {
      assert RefilledAt(trace, events, k);
    }
  }

  /** Between any two counted underruns playback was refilled to the larger of the
      playback target and the read. */
  lemma UnderrunsAreSeparated(p: Pipeline, events: seq<Event>, trace: seq<Dial>, i: nat, j: nat)
    requires Valid(p) && trace == Trace(p, events) && i < j < |events|
    requires UnderrunAt(trace, events, i) && UnderrunAt(trace, events, j)
    ensures exists k :: i < k < j && RefilledAt(trace, events, k)
  {
    TraceMoves(p, events);
    BufferingLasts(p.format, trace, events, i, j);
  }

  /** As soon as the ring holds the playback target and what is read, the next read plays: it
      takes all it asked for and ends the buffering. */
  lemma RefilledReadsPlay(p: Pipeline, events: seq<Event>, trace: seq<Dial>, k: nat)
    requires Valid(p) && trace == Trace(p, events) && k < |events| && events[k].Read?
    requires trace[k].queued >= trace[k].playback && trace[k].queued >= events[k].n
    ensures !trace[k + 1].buffering && trace[k + 1].queued == trace[k].queued - events[k].n
  {
    TraceMoves(p, events);
    assert MovesAt(p.format, trace, events, k);
  }

  /** The dials count the same underruns as the ring. */
  lemma UnderrunsAreCounted(p: Pipeline, n: nat)
    requires Valid(p)
    ensures Underruns(Reading(p), n) <==> RingModel.Read(p.ring, n).ring.underruns != p.ring.underruns
  {
  }
}
