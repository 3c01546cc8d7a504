/** The phone's jitter buffer (android/app/src/main/rust/src/jitter.rs). */
module Jitter {
  import opened Numbers
  import opened AudioPackets
  import opened Model = JitterModel

  class JitterBuffer {
    var expectedSequence: Option<u32>
    var packets: map<u32, AudioPacket>
    var targetPackets: u64
    var maxPackets: u64
    var started: bool
    var lostPackets: u64
    var latePackets: u64

    ghost function View(): Buffer
      reads this
    {
      Buffer(expectedSequence, packets, targetPackets, maxPackets, started, lostPackets, latePackets)
    }

    constructor (target: u64)
      ensures View() == New(target) && Model.Valid(View())
    {
      targetPackets := Max(target, 1);
      maxPackets := MaxPackets(Max(target, 1));
      expectedSequence, packets, started := None, map[], false;
      lostPackets, latePackets := 0, 0;
    }

    method Restart(nextSequence: u32)
      requires Model.Valid(View())
      modifies this
      ensures View() == Model.Restart(old(View()), nextSequence) && Model.Valid(View())
    {
      packets := map[];
      expectedSequence := Some(nextSequence);
      started := false;
    }

    method Push(packet: AudioPacket) returns (output: seq<JitterOutput>)
      requires Model.Valid(View())
      modifies this
      ensures Pushed(View(), output) == Model.Push(old(View()), packet) && Model.Valid(View())
    {
      PushKeepsValid(View(), packet);
      if expectedSequence.None? {
        expectedSequence := Some(packet.sequence);
      }
      if packet.sequence in packets {
        return [];
      }
      if SequenceIsBefore(packet.sequence, expectedSequence.value) {
        latePackets := SaturatingAdd(latePackets, 1);
        return [];
      }
      packets := packets[packet.sequence := packet];
      output := DrainReady();
    }

    method IncreaseTarget(additional: u64, maximum: u64) returns (raised: bool)
      requires Model.Valid(View())
      modifies this
      ensures View() == Model.IncreaseTarget(old(View()), additional, maximum) && Model.Valid(View())
      ensures raised <==> old(targetPackets) < Max(maximum, 1)
      ensures raised ==> targetPackets > old(targetPackets) && !started
    {
      var maximum := Max(maximum, 1);
      if targetPackets >= maximum {
        return false;
      }
      targetPackets := Min(Saturate(targetPackets + Max(additional, 1)), maximum);
      maxPackets := MaxPackets(targetPackets);
      started := false;
      return true;
    }

    method DrainReady() returns (output: seq<JitterOutput>)
      requires Ahead(View())
      modifies this
      ensures Pushed(View(), output) == Model.DrainReady(old(View()))
    {
      if !started {
        if |packets| < targetPackets {
          return [];
        }
        started := true;
      }
      output := [];
      ghost var entry := View();
      var more := true;
      while more
        invariant PassesThrough(entry, output, View())
        invariant !more ==> Step(View()).Stop?
        decreases more, Remaining(View())
      {
        PassesOn(entry, output, View());
        var item;
        more, item := DrainOne();
        output := output + item;
      }
    }

    /** One turn of the drain loop; `more` is false where the loop ends. */
    method DrainOne() returns (more: bool, item: seq<JitterOutput>)
      requires Ahead(View())
      modifies this
      ensures more ==> Step(old(View())) == Go(View(), item)
      ensures !more ==> Step(old(View())) == Stop && View() == old(View()) && item == []
    {
      if expectedSequence.None? {
        return false, [];
      }
      var expected := expectedSequence.value;
      if expected in packets {
        item := [Audio(packets[expected])];
        packets := packets - {expected};
        expectedSequence := Some(WrappingAdd(expected, 1));
        return true, item;
      }
      var next := NextBufferedSequence(expected);
      if next.None? {
        return false, [];
      }
      var missing := WrappingSub(next.value, expected);
      if missing > maxPackets {
        lostPackets := SaturatingAdd(lostPackets, missing);
        expectedSequence := Some(next.value);
        return true, [];
      }
      if |packets| < targetPackets && |packets| < maxPackets {
        return false, [];
      }
      expectedSequence := Some(WrappingAdd(expected, 1));
      lostPackets := SaturatingAdd(lostPackets, 1);
      return true, [Silence];
    }

    /** The nearest buffered number after `expected`. */
    method NextBufferedSequence(expected: u32) returns (next: Option<u32>)
      ensures next == NextBuffered(packets, expected)
    {
      var rest := packets.Keys;
      next := None;
      while rest != {}
        invariant rest <= packets.Keys
        invariant next.None? ==> forall k <- packets.Keys - rest :: !SequenceIsAfter(k, expected)
        invariant next.Some? ==>
          && next.value in Later(packets, expected)
          && forall j <- packets.Keys - rest :: SequenceIsAfter(j, expected) ==>
               WrappingSub(next.value, expected) <= WrappingSub(j, expected)
        decreases rest
      {
        var k :| k in rest;
        rest := rest - {k};
        if SequenceIsAfter(k, expected)
          && (next.None? || WrappingSub(k, expected) < WrappingSub(next.value, expected))
        {
          next := Some(k);
        }
      }
      if next.Some? {
        var nearest := Nearest(Later(packets, expected), expected);
        assert IsNearest(next.value, Later(packets, expected), expected);
      }
    }
  }
}
