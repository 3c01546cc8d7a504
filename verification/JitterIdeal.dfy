/** The reference jitter buffer: the same decisions over unbounded positions, with
    no wrap-around and no saturation. Its laws are stated here; JitterRefinement
    shows that the 32-bit buffer does exactly what this one does. */
module JitterIdeal {
  import opened Numbers
  import opened AudioPackets
  import opened JitterModel

  datatype IdealOutput = IdealAudio(position: nat, packet: AudioPacket) | IdealSilence

  datatype Ideal = Ideal(
    expected: Option<nat>,
    packets: map<nat, AudioPacket>,
    target: u64,
    maxPackets: u64,
    started: bool,
    lost: nat,
    late: nat)
  {
    ghost predicate Ordered() {
      forall k <- packets :: expected.Some? && expected.value <= k
    }

    ghost predicate Valid() {
      && Ordered() && |packets| < target
      && 1 <= target <= maxPackets
    }
  }

  datatype IdealPushed = IdealPushed(buffer: Ideal, output: seq<IdealOutput>)

  datatype IdealStep = Halt | Advance(buffer: Ideal, output: seq<IdealOutput>)

  ghost function Distance(i: Ideal): nat
    requires i.Ordered()
  {
    if i.packets == map[] then 0 else Least(i.packets.Keys) - i.expected.value
  }

  ghost function Turn(i: Ideal): (r: IdealStep)
    requires i.Ordered()
    ensures r.Advance? ==>
      && r.buffer.Ordered() && i.expected.Some? && r.buffer.expected.Some?
      && (|r.buffer.packets| < |i.packets|
          || (r.buffer.packets == i.packets && Distance(r.buffer) < Distance(i)))
  {
    if i.expected.None? then Halt else
    var e := i.expected.value;
    if e in i.packets then
      assert |i.packets - {e}| < |i.packets|;
      Advance(i.(packets := i.packets - {e}, expected := Some(e + 1)), [IdealAudio(e, i.packets[e])])
    else if i.packets == map[] then Halt else
    var next := Least(i.packets.Keys);
    if next - e > i.maxPackets then
      Advance(i.(lost := i.lost + (next - e), expected := Some(next)), [])
    else if |i.packets| < i.target && |i.packets| < i.maxPackets then Halt
    else
      Advance(i.(expected := Some(e + 1), lost := i.lost + 1), [IdealSilence])
  }

  ghost function IdealDrain(i: Ideal): IdealPushed
    requires i.Ordered()
    decreases |i.packets|, Distance(i)
  {
    match Turn(i)
    case Halt => IdealPushed(i, [])
    case Advance(next, output) =>
      IdealPushed(IdealDrain(next).buffer, output + IdealDrain(next).output)
  }

  ghost function IdealDrainReady(i: Ideal): IdealPushed
    requires i.Ordered()
  {
    if !i.started && |i.packets| < i.target then IdealPushed(i, [])
    else IdealDrain(i.(started := true))
  }

  ghost function IdealPush(i: Ideal, n: int, packet: AudioPacket): IdealPushed
    requires i.Ordered() && (i.expected.None? ==> n >= 0)
  {
    var e := match i.expected case Some(e) => e case None => n;
    var i := i.(expected := Some(e));
    if n in i.packets then IdealPushed(i, [])
    else if n < e then IdealPushed(i.(late := i.late + 1), [])
    else IdealDrainReady(i.(packets := i.packets[n := packet]))
  }

  ghost function IdealRestart(i: Ideal, n: nat): Ideal {
    i.(packets := map[], expected := Some(n), started := false)
  }

  ghost function IdealIncreaseTarget(i: Ideal, additional: u64, maximum: u64): Ideal {
    var maximum := Max(maximum, 1);
    if i.target >= maximum then i else
    var target := Min(Saturate(i.target + Max(additional, 1)), maximum);
    i.(target := target, maxPackets := MaxPackets(target), started := false)
  }
}
