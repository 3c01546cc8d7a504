/** What the phone's jitter buffer does, as functions of its value, over wrapping 32-bit sequence numbers
    (android/app/src/main/rust/src/jitter.rs). */
module JitterModel {
  import opened Numbers
  import opened AudioPackets

  datatype JitterOutput = Audio(packet: AudioPacket) | Silence

  /** The value of a JitterBuffer. */
  datatype Buffer = Buffer(
    expected: Option<u32>,
    packets: map<u32, AudioPacket>,
    target: u64,
    maxPackets: u64,
    started: bool,
    lost: u64,
    late: u64)

  datatype Pushed = Pushed(buffer: Buffer, output: seq<JitterOutput>)

  /** Serial-number comparison; a distance of exactly 2^31 counts as before. */
  predicate SequenceIsBefore(sequence: u32, reference: u32) {
    var distance := WrappingSub(sequence, reference);
    distance != 0 && distance >= HALF_U32
  }

  predicate SequenceIsAfter(sequence: u32, reference: u32) {
    var distance := WrappingSub(sequence, reference);
    distance != 0 && distance < HALF_U32
  }

  /** Window of sequence numbers a gap may span before it is skipped. */
  function MaxPackets(target: u64): (r: u64)
    ensures target <= r && 4 <= r
  {
    Max(Saturate(3 * target), 4)
  }

  function New(target: u64): Buffer {
    var target := Max(target, 1);
    Buffer(None, map[], target, MaxPackets(target), false, 0, 0)
  }

  /** Every buffered number lies fewer than 2^31 steps ahead of the expected one. */
  ghost predicate Ahead(b: Buffer) {
    forall k <- b.packets ::
      b.expected.Some? && WrappingSub(k, b.expected.value) < HALF_U32
  }

  ghost predicate WellFormed(b: Buffer) {
    && Ahead(b)
    && (forall k <- b.packets :: b.packets[k].sequence == k)
    && 1 <= b.target && b.maxPackets == MaxPackets(b.target)
  }

  /** What holds between operations. */
  ghost predicate Valid(b: Buffer) {
    WellFormed(b) && |b.packets| < b.target
  }

  /** The buffered numbers after `expected`. */
  ghost function Later(packets: map<u32, AudioPacket>, expected: u32): set<u32> {
    set k | k in packets && SequenceIsAfter(k, expected)
  }

  ghost predicate IsNearest(k: u32, keys: set<u32>, expected: u32) {
    k in keys && forall j <- keys :: WrappingSub(k, expected) <= WrappingSub(j, expected)
  }

  ghost function Nearest(keys: set<u32>, expected: u32): (k: u32)
    requires keys != {}
    ensures IsNearest(k, keys, expected)
  {
    var j :| j in keys;
    if keys == {j} then j else
      var k := Nearest(keys - {j}, expected);
      if WrappingSub(j, expected) < WrappingSub(k, expected) then j else k
  }

  ghost function NextBuffered(packets: map<u32, AudioPacket>, expected: u32): Option<u32> {
    var later := Later(packets, expected);
    if later == {} then None else Some(Nearest(later, expected))
  }

  /** Steps left before the next buffered packet can be emitted. */
  ghost function Gap(b: Buffer): u32
    requires b.expected.Some?
  {
    var e := b.expected.value;
    if e in b.packets then 0 else
    match NextBuffered(b.packets, e)
    case None => 0
    case Some(next) => WrappingSub(next, e)
  }

  /** Bounds the turns of the drain loop. */
  ghost function Remaining(b: Buffer): nat {
    if b.expected.None? then 0 else |b.packets| * U32_MODULUS + Gap(b)
  }

  lemma NextIsStable(b: Buffer)
    requires b.expected.Some? && Ahead(b) && b.expected.value !in b.packets
    ensures NextBuffered(b.packets, b.expected.value).None? <==> b.packets == map[]
    ensures var e := b.expected.value;
            match NextBuffered(b.packets, e)
            case None => true
            case Some(next) =>
              var step := b.(expected := Some(WrappingAdd(e, 1)));
              && Ahead(step) && Ahead(b.(expected := Some(next)))
              && Gap(step) < Gap(b) && Gap(b.(expected := Some(next))) == 0
  {
    var e := b.expected.value;
    forall k | k in b.packets ensures k in Later(b.packets, e) {
      assert WrappingSub(k, e) < HALF_U32;
    }
    if NextBuffered(b.packets, e).Some? {
      var next := NextBuffered(b.packets, e).value;
      var e1 := WrappingAdd(e, 1);
      forall k | k in b.packets
        ensures WrappingSub(k, e1) == WrappingSub(k, e) - 1
        ensures WrappingSub(k, next) < HALF_U32
      {
        assert WrappingSub(k, e) >= WrappingSub(next, e) > 0;
      }
      if e1 !in b.packets {
        assert next in Later(b.packets, e1);
      }
    }
  }

  datatype Stepped = Stop | Go(buffer: Buffer, output: seq<JitterOutput>)

  /** One turn of the drain loop: emit what is ready, skip a gap wider than the
      window, wait while fewer than `target` packets are buffered, else fill with
      silence. */
  ghost function Step(b: Buffer): (r: Stepped)
    requires Ahead(b)
    ensures r.Go? ==>
      && Ahead(r.buffer) && b.expected.Some? && r.buffer.expected.Some?
      && |r.output| <= 1
      && Remaining(r.buffer) < Remaining(b)
  {
    if b.expected.None? then Stop else
    var e := b.expected.value;
    if e in b.packets then
      assert |b.packets - {e}| < |b.packets|;
      Go(b.(packets := b.packets - {e}, expected := Some(WrappingAdd(e, 1))), [Audio(b.packets[e])])
    else
      match NextBuffered(b.packets, e)
      case None => Stop
      case Some(next) =>
        NextIsStable(b);
        var missing := WrappingSub(next, e);
        if missing > b.maxPackets then
          Go(b.(lost := SaturatingAdd(b.lost, missing), expected := Some(next)), [])
        else if |b.packets| < b.target && |b.packets| < b.maxPackets then
          Stop
        else
          Go(b.(expected := Some(WrappingAdd(e, 1)), lost := SaturatingAdd(b.lost, 1)), [Silence])
  }

  /** The drain loop. */
  ghost function Drain(b: Buffer): Pushed
    requires Ahead(b)
    decreases Remaining(b)
  {
    match Step(b)
    case Stop => Pushed(b, [])
    case Go(next, output) => Pushed(Drain(next).buffer, output + Drain(next).output)
  }

  /** Draining `entry` passes through `b` after putting out `done`. */
  ghost predicate PassesThrough(entry: Buffer, done: seq<JitterOutput>, b: Buffer) {
    && Ahead(entry) && Ahead(b)
    && Drain(entry).buffer == Drain(b).buffer
    && Drain(entry).output == done + Drain(b).output
  }

  lemma PassesOn(entry: Buffer, done: seq<JitterOutput>, b: Buffer)
    requires PassesThrough(entry, done, b)
    ensures Step(b).Go? ==> PassesThrough(entry, done + Step(b).output, Step(b).buffer)
    ensures done + [] == done
  {
  }

  ghost function DrainReady(b: Buffer): Pushed
    requires Ahead(b)
  {
    if !b.started && |b.packets| < b.target then Pushed(b, [])
    else Drain(b.(started := true))
  }

  ghost function Push(b: Buffer, packet: AudioPacket): Pushed
    requires WellFormed(b)
  {
    var expected := match b.expected case Some(e) => e case None => packet.sequence;
    var b := b.(expected := Some(expected));
    if packet.sequence in b.packets then Pushed(b, [])
    else if SequenceIsBefore(packet.sequence, expected) then
      Pushed(b.(late := SaturatingAdd(b.late, 1)), [])
    else
      DrainReady(b.(packets := b.packets[packet.sequence := packet]))
  }

  ghost function Restart(b: Buffer, nextSequence: u32): Buffer {
    b.(packets := map[], expected := Some(nextSequence), started := false)
  }

  ghost function IncreaseTarget(b: Buffer, additional: u64, maximum: u64): Buffer {
    var maximum := Max(maximum, 1);
    if b.target >= maximum then b else
    var target := Min(Saturate(b.target + Max(additional, 1)), maximum);
    b.(target := target, maxPackets := MaxPackets(target), started := false)
  }

  lemma StepKeepsWellFormed(b: Buffer)
    requires WellFormed(b)
    ensures match Step(b)
            case Stop => b.packets == map[] || |b.packets| < b.target
            case Go(next, _) => WellFormed(next) && next.target == b.target
  {
    if Step(b).Stop? && b.expected.Some? && b.expected.value !in b.packets {
      NextIsStable(b);
    }
  }

  lemma {:induction false} DrainKeepsValid(b: Buffer)
    requires WellFormed(b)
    ensures Valid(Drain(b).buffer) && Drain(b).buffer.target == b.target
    decreases Remaining(b)
  {
    StepKeepsWellFormed(b);
    if Step(b).Go? {
      DrainKeepsValid(Step(b).buffer);
    }
  }

  /** Between operations fewer than `target` packets are buffered, all of them under
      their own number and less than 2^31 ahead; a push keeps that. */
  lemma PushKeepsValid(b: Buffer, packet: AudioPacket)
    requires Valid(b)
    ensures Valid(Push(b, packet).buffer) && Push(b, packet).buffer.target == b.target
  {
    var expected := match b.expected case Some(e) => e case None => packet.sequence;
    var accepted := b.(expected := Some(expected), packets := b.packets[packet.sequence := packet]);
    if packet.sequence !in b.packets && !SequenceIsBefore(packet.sequence, expected) {
      DrainKeepsValid(accepted.(started := true));
    }
  }
}
