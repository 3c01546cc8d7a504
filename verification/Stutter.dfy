/** What makes the phone raise its jitter target
    (android/app/src/main/rust/src/receiver.rs:94-137). */
module Stutter {
  import opened Numbers
  import opened AudioPackets
  import JitterModel
  import RingModel
  import opened ReceiverModel
  import opened ReceiverRuns

  /** The packet is neither waiting already nor behind what is expected next. */
  predicate IsAccepted(b: JitterModel.Buffer, packet: AudioPacket) {
    && packet.sequence !in b.packets
    && (b.expected.None? || WrappingSub(packet.sequence, b.expected.value) < HALF_U32)
  }

  /** It comes behind what is expected next, and there is room to count it. */
  predicate CountsLate(b: JitterModel.Buffer, packet: AudioPacket) {
    && packet.sequence !in b.packets && b.late < U64_MODULUS - 1
    && b.expected.Some? && WrappingSub(packet.sequence, b.expected.value) >= HALF_U32
  }

  /** With it the buffer holds its target for the first time, or had so before. */
  predicate StartsWith(b: JitterModel.Buffer, packet: AudioPacket) {
    b.started || (IsAccepted(b, packet) && |b.packets| + 1 >= b.target)
  }

  lemma {:induction false} DrainKeepsCounts(b: JitterModel.Buffer)
    requires JitterModel.Ahead(b)
    ensures JitterModel.Drain(b).buffer.started == b.started && JitterModel.Drain(b).buffer.late == b.late
    ensures JitterModel.Drain(b).buffer.maxPackets == b.maxPackets && JitterModel.Drain(b).buffer.target == b.target
    decreases JitterModel.Remaining(b)
  {
    if JitterModel.Step(b).Go? {
      DrainKeepsCounts(JitterModel.Step(b).buffer);
    }
  }

  /** A push starts the buffer and counts a late packet exactly in these cases. */
  lemma PushCountsExactly(b: JitterModel.Buffer, packet: AudioPacket)
    requires JitterModel.Valid(b)
    ensures var c := JitterModel.Push(b, packet).buffer;
            && (c.started <==> StartsWith(b, packet))
            && c.late == b.late + (if CountsLate(b, packet) then 1 else 0)
            && c.target == b.target
  {
    JitterModel.PushKeepsValid(b, packet);
    if IsAccepted(b, packet) {
      var e := if b.expected.Some? then b.expected.value else packet.sequence;
      var more := b.(expected := Some(e), packets := b.packets[packet.sequence := packet]);
      assert |more.packets| == |b.packets| + 1;
      DrainKeepsCounts(more.(started := true));
    }
  }

  /** The ring ran dry since the last packet, or this one is late. */
  predicate IsStutter(p: Pipeline, packet: AudioPacket) {
    p.ring.underruns > p.lastUnderruns || CountsLate(p.jitter, packet)
  }

  /** The next packet raises the target. */
  predicate IsRaise(p: Pipeline, packet: AudioPacket) {
    p.cooldown == 0 && IsStutter(p, packet) && StartsWith(p.jitter, packet) && p.jitter.target < p.format.maximum
  }

  /** A packet of the right size raises the target exactly after stutter, once the cooldown ran
      out, while the buffer is started and the target below its maximum: then by one step as
      far as the maximum allows, with the playback target following and the cooldown anew. */
  lemma PacketRaisesExactly(p: Pipeline, packet: AudioPacket)
    requires ReceiverModel.Valid(p) && |packet.payload| == p.format.packetBytes
    ensures var q := Handle(p, packet);
            && q.format == p.format && q.lastUnderruns == p.ring.underruns
            && q.ring.capacity == p.ring.capacity && q.ring.underruns == p.ring.underruns
            && q.ring.buffering == p.ring.buffering
            && if IsRaise(p, packet) then
                 && q.jitter.target > p.jitter.target && q.cooldown == p.format.cooldown && !q.jitter.started
                 && (q.jitter.target == p.jitter.target + p.format.step || q.jitter.target == p.format.maximum)
                 && q.jitter.target <= p.format.maximum && q.jitter.target <= p.jitter.target + p.format.step
                 && q.ring.target == Min(q.jitter.target * p.format.packetSamples, p.ring.capacity)
               else
                 && q.jitter.target == p.jitter.target && q.ring.target == p.ring.target
                 && q.cooldown == (if p.cooldown == 0 then 0 else p.cooldown - 1)
                 && (q.jitter.started <==> StartsWith(p.jitter, packet))
  {
    PushCountsExactly(p.jitter, packet);
    hide JitterModel.Push, JitterModel.MaxPackets;
  }

  /** A packet of another size changes nothing. */
  lemma WrongSizeIsIgnored(p: Pipeline, packet: AudioPacket)
    requires ReceiverModel.Valid(p) && |packet.payload| != p.format.packetBytes
    ensures Handle(p, packet) == p
  {
  }

  // ----- over runs -----

  ghost function Run(p: Pipeline, events: seq<Event>): (q: Pipeline)
    requires ReceiverModel.Valid(p)
    ensures ReceiverModel.Valid(q) && q.format == p.format
  {
    if events == [] then p else
    var before := Run(p, events[..|events| - 1]);
    NextKeepsValid(before, events[|events| - 1]);
    Next(before, events[|events| - 1])
  }

  /** The event neither runs the ring dry nor is a late packet. */
  ghost predicate IsSmooth(p: Pipeline, event: Event) {
    match event
    case Arrive(packet) => |packet.payload| == p.format.packetBytes ==> !CountsLate(p.jitter, packet)
    case Read(n) => |p.ring.queue| >= n || (p.ring.buffering && |p.ring.queue| < Max(p.ring.target, n))
    case _ => true
  }

  ghost predicate IsSmoothRun(p: Pipeline, events: seq<Event>)
    requires ReceiverModel.Valid(p)
  {
    forall k | 0 <= k < |events| :: IsSmooth(Run(p, events[..k]), events[k])
  }

  lemma SmoothStep(p: Pipeline, event: Event)
    requires ReceiverModel.Valid(p) && p.ring.underruns <= p.lastUnderruns && IsSmooth(p, event)
    ensures Next(p, event).ring.underruns <= Next(p, event).lastUnderruns
    ensures Next(p, event).jitter.target == p.jitter.target
  {
    if event.Arrive? {
      if |event.packet.payload| == p.format.packetBytes {
        PacketRaisesExactly(p, event.packet);
      } else {
        WrongSizeIsIgnored(p, event.packet);
      }
    }
  }

  /** Smooth play leaves the target alone, however long it lasts. */
  lemma {:induction false} SmoothPlayKeepsTarget(p: Pipeline, events: seq<Event>)
    requires ReceiverModel.Valid(p) && p.ring.underruns <= p.lastUnderruns && IsSmoothRun(p, events)
    ensures Run(p, events).jitter.target == p.jitter.target
    ensures Run(p, events).ring.underruns <= Run(p, events).lastUnderruns
  {
    if events != [] {
      var n := |events| - 1;
      var front := events[..n];
      assert forall k | 0 <= k < n :: front[..k] == events[..k];
      SmoothPlayKeepsTarget(p, front);
      assert IsSmooth(Run(p, events[..n]), events[n]);
      SmoothStep(Run(p, front), events[n]);
    }
  }

  /** Neither restarts playback nor delivers a packet. */
  predicate OnlyPlays(f: Format, event: Event) {
    !event.Restart? && !Delivers(f, event)
  }

  lemma PlayingRemembers(p: Pipeline, event: Event)
    requires ReceiverModel.Valid(p) && OnlyPlays(p.format, event) && p.ring.underruns < U64_MODULUS - 1
    ensures var q := Next(p, event);
            && q.jitter == p.jitter && q.cooldown == p.cooldown && q.lastUnderruns == p.lastUnderruns
            && p.ring.underruns <= q.ring.underruns <= p.ring.underruns + 1
  {
    if event.Arrive? {
      WrongSizeIsIgnored(p, event.packet);
    }
  }

  lemma {:induction false} PlayingOnRemembers(p: Pipeline, events: seq<Event>)
    requires ReceiverModel.Valid(p) && p.ring.underruns + |events| < U64_MODULUS
    requires forall e <- events :: OnlyPlays(p.format, e)
    ensures var q := Run(p, events);
            && q.jitter == p.jitter && q.cooldown == p.cooldown && q.lastUnderruns == p.lastUnderruns
            && p.ring.underruns <= q.ring.underruns <= p.ring.underruns + |events|
  {
    if events != [] {
      var n := |events| - 1;
      assert events[n] in events;
      PlayingOnRemembers(p, events[..n]);
      PlayingRemembers(Run(p, events[..n]), events[n]);
    }
  }

  /** A ring that runs dry raises the target with the next packet, whatever is read until then,
      if the cooldown ran out and the buffer is started and below its maximum. */
  lemma RunningDryRaises(p: Pipeline, n: nat, events: seq<Event>, packet: AudioPacket)
    requires ReceiverModel.Valid(p) && p.lastUnderruns <= p.ring.underruns
    requires |p.ring.queue| < n && !(p.ring.buffering && |p.ring.queue| < Max(p.ring.target, n))
    requires p.ring.underruns + 1 + |events| < U64_MODULUS
    requires forall e <- events :: OnlyPlays(p.format, e)
    requires p.cooldown == 0 && p.jitter.started && p.jitter.target < p.format.maximum
    requires |packet.payload| == p.format.packetBytes
    ensures ReceiverModel.Valid(Next(p, Read(n)))
    ensures var later := Run(Next(p, Read(n)), events);
            later.jitter.target == p.jitter.target < Handle(later, packet).jitter.target
  {
    NextKeepsValid(p, Read(n));
    PlayingOnRemembers(Next(p, Read(n)), events);
    PacketRaisesExactly(Run(Next(p, Read(n)), events), packet);
  }
}
