/** What the phone's receive pipeline does, as functions of its value
    (android/app/src/main/rust/src/receiver.rs). */
module ReceiverModel {
  import opened Numbers
  import opened AudioPackets
  import opened JitterModel
  import RingModel

  const INITIAL_JITTER_BUFFER_MS := 20
  const JITTER_BUFFER_STEP_MS := 10
  const ADAPTATION_COOLDOWN_MS := 1000
  const MAX_JITTER_BUFFER_MS := 100
  /** 100 ms of 48 kHz stereo. */
  const PCM_RING_CAPACITY_SAMPLES := 9600

  type FrameMs = x: int | 1 <= x < 0x100 witness 1

  /** What a stream's frame duration determines, in samples of both channels, bytes and packets. */
  datatype Format = Format(
    packetSamples: nat,
    packetBytes: nat,
    target: u64,
    step: u64,
    maximum: u64,
    cooldown: nat)

  datatype Pipeline = Pipeline(
    jitter: Buffer,
    ring: RingModel.Ring,
    format: Format,
    cooldown: nat,
    lastUnderruns: u64)

  function PacketsForDuration(ms: nat, frameMs: FrameMs): nat {
    Max(DivCeil(ms, frameMs), 1)
  }

  /** A longer duration takes no fewer packets, and no more than one for each millisecond. */
  lemma PacketsGrow(a: nat, b: nat, frameMs: FrameMs)
    requires 1 <= a <= b
    ensures 1 <= PacketsForDuration(a, frameMs) <= PacketsForDuration(b, frameMs) <= b
  {
    var f: int := frameMs;
    var x, y := DivCeil(a, f), DivCeil(b, f);
    assert x <= y by { Quotient(a + f - 1, f); Quotient(b + f - 1, f); Grows(x, y, f, a + f - 1, b + f - 1); }
    assert y <= b by { Quotient(b + f - 1, f); Bounded(y, f, b); }
  }

  lemma Quotient(n: nat, d: nat)
    requires d > 0
    ensures d * (n / d) <= n < d * (n / d) + d
  {
  }

  lemma Grows(x: nat, y: nat, d: nat, m: nat, n: nat)
    requires d > 0 && m <= n && d * x <= m && n < d * y + d
    ensures x <= y
  {
    assert x > y ==> d * x >= d * (y + 1);
  }

  lemma Bounded(y: nat, d: nat, n: nat)
    requires d > 0 && n > 0 && d * y <= n + d - 1
    ensures y <= n
  {
    assert y > n ==> d * y >= d * (n + 1);
    assert d * (n + 1) == (d - 1) * n + n + d;
    assert (d - 1) * n >= 0;
  }

  function FormatOf(frameMs: FrameMs): Format {
    PacketsGrow(INITIAL_JITTER_BUFFER_MS, INITIAL_JITTER_BUFFER_MS, frameMs);
    PacketsGrow(JITTER_BUFFER_STEP_MS, JITTER_BUFFER_STEP_MS, frameMs);
    PacketsGrow(MAX_JITTER_BUFFER_MS, MAX_JITTER_BUFFER_MS, frameMs);
    Format(
      48 * frameMs * 2,
      48 * frameMs * 2 * 2,
      PacketsForDuration(INITIAL_JITTER_BUFFER_MS, frameMs),
      PacketsForDuration(JITTER_BUFFER_STEP_MS, frameMs),
      PacketsForDuration(MAX_JITTER_BUFFER_MS, frameMs),
      PacketsForDuration(ADAPTATION_COOLDOWN_MS, frameMs))
  }

  predicate Sized(f: Format) {
    && 0 < f.packetSamples && f.packetSamples % 2 == 0 && f.packetBytes == 2 * f.packetSamples
    && 1 <= f.target <= f.maximum && 1 <= f.step && 1 <= f.cooldown
  }

  lemma FormatsAreSized(frameMs: FrameMs)
    ensures Sized(FormatOf(frameMs))
  {
    PacketsGrow(INITIAL_JITTER_BUFFER_MS, MAX_JITTER_BUFFER_MS, frameMs);
  }

  /** The playback target of `packets` packets. */
  function TargetSamples(packets: nat, packetSamples: nat): nat {
    packets * packetSamples
  }

  /** The pipeline of a new session on `ring`. */
  function New(f: Format, ring: RingModel.Ring): Pipeline {
    Pipeline(
      JitterModel.New(f.target),
      RingModel.SetTarget(ring, TargetSamples(f.target, f.packetSamples)).(buffering := true),
      f,
      f.cooldown,
      ring.underruns)
  }

  ghost function Resume(p: Pipeline, nextSequence: u32): Pipeline {
    p.(jitter := Restart(p.jitter, nextSequence),
       ring := p.ring.(queue := [], buffering := true),
       lastUnderruns := p.ring.underruns,
       cooldown := p.format.cooldown)
  }

  /** The samples one jitter output stands for. */
  function PcmOf(item: JitterOutput, f: Format): seq<i16> {
    match item
    case Audio(packet) => Samples(packet.payload)
    case Silence => Zeros(f.packetSamples)
  }

  function Pcm(output: seq<JitterOutput>, f: Format): seq<i16> {
    if output == [] then [] else Pcm(output[..|output| - 1], f) + PcmOf(output[|output| - 1], f)
  }

  predicate WholePacket(p: Pipeline, packet: AudioPacket) {
    |packet.payload| == p.format.packetBytes
  }

  /** The pipeline once the packet went through jitter buffer and ring, before adaptation. */
  ghost function Delivered(p: Pipeline, packet: AudioPacket): Pipeline
    requires JitterModel.Valid(p.jitter)
  {
    var Pushed(buffer, output) := Push(p.jitter, packet);
    p.(jitter := buffer, ring := RingModel.Write(p.ring, Pcm(output, p.format)), lastUnderruns := p.ring.underruns)
  }

  ghost predicate Stutters(p: Pipeline, packet: AudioPacket)
    requires JitterModel.Valid(p.jitter)
  {
    p.ring.underruns > p.lastUnderruns || Push(p.jitter, packet).buffer.late > p.jitter.late
  }

  ghost predicate Raises(p: Pipeline, stutter: bool) {
    p.cooldown == 0 && stutter && p.jitter.started && p.jitter.target < p.format.maximum
  }

  ghost function Adjust(p: Pipeline, stutter: bool): Pipeline {
    if p.cooldown > 0 then p.(cooldown := p.cooldown - 1)
    else if Raises(p, stutter) then
      var jitter := IncreaseTarget(p.jitter, p.format.step, p.format.maximum);
      p.(jitter := jitter,
         ring := RingModel.SetTarget(p.ring, TargetSamples(jitter.target, p.format.packetSamples)),
         cooldown := p.format.cooldown)
    else p
  }

  /** A packet of the wrong size is ignored. */
  ghost function Handle(p: Pipeline, packet: AudioPacket): Pipeline
    requires JitterModel.Valid(p.jitter)
  {
    if WholePacket(p, packet) then Adjust(Delivered(p, packet), Stutters(p, packet)) else p
  }

  ghost predicate AllWhole(p: Pipeline) {
    forall k <- p.jitter.packets :: WholePacket(p, p.jitter.packets[k])
  }

  /** What holds between operations: beside the invariants of the parts, only whole packets
      are buffered, and the playback target is that of the jitter buffer as far as the ring
      can hold it. */
  ghost predicate Valid(p: Pipeline) {
    && JitterModel.Valid(p.jitter) && RingModel.Valid(p.ring) && Sized(p.format)
    && AllWhole(p)
    && p.jitter.target <= p.format.maximum
    && p.ring.target == Min(TargetSamples(p.jitter.target, p.format.packetSamples), p.ring.capacity)
    && p.cooldown <= p.format.cooldown
  }

  lemma NewIsValid(f: Format, ring: RingModel.Ring)
    requires RingModel.Valid(ring) && Sized(f)
    ensures Valid(New(f, ring))
  {
  }

  lemma AdjustKeepsValid(p: Pipeline, stutter: bool)
    requires Valid(p)
    ensures Valid(Adjust(p, stutter))
  {
  }

  lemma HandleKeepsValid(p: Pipeline, packet: AudioPacket)
    requires Valid(p)
    ensures Valid(Handle(p, packet))
  {
    PushKeepsValid(p.jitter, packet);
    if WholePacket(p, packet) {
      PushKeepsWhole(p, packet);
      AdjustKeepsValid(Delivered(p, packet), Stutters(p, packet));
    }
  }

  ghost predicate OutputIsWhole(p: Pipeline, output: seq<JitterOutput>) {
    forall o <- output :: o.Audio? ==> WholePacket(p, o.packet)
  }

  /** Draining moves packets from the buffer to the output. */
  lemma {:induction false} DrainKeepsWhole(p: Pipeline)
    requires Ahead(p.jitter) && AllWhole(p)
    ensures OutputIsWhole(p, Drain(p.jitter).output)
    ensures AllWhole(p.(jitter := Drain(p.jitter).buffer))
    decreases Remaining(p.jitter)
  {
    if Step(p.jitter).Go? {
      DrainKeepsWhole(p.(jitter := Step(p.jitter).buffer));
    }
  }

  lemma PushKeepsWhole(p: Pipeline, packet: AudioPacket)
    requires Valid(p) && WholePacket(p, packet)
    ensures OutputIsWhole(p, Push(p.jitter, packet).output)
    ensures AllWhole(p.(jitter := Push(p.jitter, packet).buffer))
  {
    var expected := match p.jitter.expected case Some(e) => e case None => packet.sequence;
    if packet.sequence !in p.jitter.packets && !SequenceIsBefore(packet.sequence, expected) {
      DrainKeepsWhole(p.(jitter := p.jitter.(
        expected := Some(expected), packets := p.jitter.packets[packet.sequence := packet], started := true)));
    }
  }
}
