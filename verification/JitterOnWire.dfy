/** The laws of the unbounded buffer, carried over to 32-bit sequence numbers. */
module JitterOnWire {
  import opened Numbers
  import opened AudioPackets
  import opened JitterModel
  import opened JitterIdeal
  import opened JitterLaws
  import opened JitterRefinement

  /** Every 32-bit buffer is the image of an unbounded one. */
  lemma {:induction false} LiftPackets(up: map<u32, AudioPacket>, w: u32, e: nat) returns (ip: map<nat, AudioPacket>)
    requires forall x <- up :: WrappingSub(x, w) < HALF_U32
    ensures SameKeys(up, ip, w, e)
    decreases |up|
  {
    if up == map[] {
      return map[];
    }
    var x :| x in up;
    var rest := up - {x};
    assert |rest| < |up| by {
      assert rest.Keys == up.Keys - {x};
    }
    var below := LiftPackets(rest, w, e);
    var n := PositionOf(w, e, x);
    assert NumberAt(w, e, n) == x;
    MemberAgrees(rest, below, w, e, x, n);
    InsertSame(rest, below, w, e, n, up[x]);
    assert rest[x := up[x]] == up;
    ip := below[n := up[x]];
  }

  lemma Lift(u: Buffer, e: nat) returns (i: Ideal)
    requires Valid(u) && (u.expected.Some? ==> u.expected.value == Wrap(e))
    ensures Represents(u, i) && i.Valid()
    ensures i.expected == (if u.expected.None? then None else Some(e)) && i.lost == u.lost
  {
    if u.expected.None? {
      i := Ideal(None, map[], u.target, u.maxPackets, u.started, u.lost, u.late);
    } else {
      var packets := LiftPackets(u.packets, u.expected.value, e);
      i := Ideal(Some(e), packets, u.target, u.maxPackets, u.started, u.lost, u.late);
    }
  }

  ghost predicate AllPackets(output: seq<JitterOutput>) {
    forall o <- output :: o.Audio?
  }

  /** At most `silences` fillers followed by at most `audios` packets. */
  ghost predicate SilenceThenPackets(output: seq<JitterOutput>, silences: nat, audios: nat) {
    if output == [] then true
    else if output[0].Silence? then silences > 0 && SilenceThenPackets(output[1..], silences - 1, audios)
    else |output| <= audios && AllPackets(output)
  }

  lemma {:induction false} EraseAt(output: seq<IdealOutput>)
    ensures |Erase(output)| == |output|
    ensures forall k | 0 <= k < |output| ::
      Erase(output)[k] == match output[k] case IdealAudio(_, p) => Audio(p) case IdealSilence => Silence
  {
    if output != [] {
      EraseAt(output[1..]);
    }
  }

  lemma {:induction false} EraseKeepsShape(output: seq<IdealOutput>, silences: nat, audios: nat)
    requires SilenceThenAudio(output, silences, audios)
    ensures SilenceThenPackets(Erase(output), silences, audios)
  {
    EraseAt(output);
    if output != [] && output[0].IdealSilence? {
      EraseKeepsShape(output[1..], silences - 1, audios);
    } else if output != [] {
      forall k | 0 <= k < |output|
        ensures Erase(output)[k].Audio?
      {
        assert output[k] in output;
      }
    }
  }

  /** However far ahead a packet is, one push puts out at most `maxPackets` fillers and
      then at most `target` packets, and leaves fewer than `target` packets waiting. */
  lemma PushIsBoundedOnWire(u: Buffer, packet: AudioPacket)
    requires Valid(u)
    ensures SilenceThenPackets(Push(u, packet).output, u.maxPackets, u.target)
    ensures |Push(u, packet).buffer.packets| < u.target
  {
    var e: nat := match u.expected case Some(e) => e case None => packet.sequence;
    assert Wrap(e) == e;
    var i := Lift(u, e);
    UnwrapWraps(e, packet.sequence);
    var n := Unwrap(e, packet.sequence);
    PushSimulates(u, i, n, packet);
    PushIsBounded(i, n, packet);
    EraseKeepsShape(IdealPush(i, n, packet).output, i.maxPackets, i.target);
    PushKeepsValid(u, packet);
  }

  datatype WireEvent = Receive(packet: AudioPacket) | RaiseTarget(additional: u64, maximum: u64)

  ghost function HandleOnWire(u: Buffer, event: WireEvent): (r: Pushed)
    requires Valid(u)
    ensures Valid(r.buffer)
  {
    match event
    case Receive(packet) =>
      PushKeepsValid(u, packet);
      Push(u, packet)
    case RaiseTarget(additional, maximum) => Pushed(IncreaseTarget(u, additional, maximum), [])
  }

  ghost function RunOnWire(u: Buffer, events: seq<WireEvent>): Pushed
    requires Valid(u)
    decreases |events|
  {
    if events == [] then Pushed(u, []) else
    var first := HandleOnWire(u, events[0]);
    var rest := RunOnWire(first.buffer, events[1..]);
    Pushed(rest.buffer, first.output + rest.output)
  }

  /** The event of the unbounded buffer that `event` stands for: its packet at the
      position nearest to the expected one. */
  function Unwrapped(e: nat, event: WireEvent): Event {
    match event
    case Receive(packet) => Arrive(Unwrap(e, packet.sequence), packet)
    case RaiseTarget(additional, maximum) => Raise(additional, maximum)
  }

  lemma HandleRefines(u: Buffer, i: Ideal, event: WireEvent)
    requires Valid(u) && Represents(u, i) && i.Ordered() && i.expected.Some?
    ensures var r, s := HandleOnWire(u, event), Handle(i, Unwrapped(i.expected.value, event));
            Represents(r.buffer, s.buffer) && r.output == Erase(s.output)
            && s.buffer.Ordered() && s.buffer.expected.Some?
  {
    HandleAccount(i, Unwrapped(i.expected.value, event));
    match event
    case RaiseTarget(_, _) =>
    case Receive(packet) =>
      UnwrapWraps(i.expected.value, packet.sequence);
      PushSimulates(u, i, Unwrap(i.expected.value, packet.sequence), packet);
  }

  /** `events` is `wire` step for step: the same raises, and the same packets, each at
      the position with its number that is nearest to the one expected at that moment. */
  ghost predicate StandsFor(i: Ideal, events: seq<Event>, wire: seq<WireEvent>)
    requires i.Ordered() && i.expected.Some?
  {
    && |events| == |wire|
    && forall k | 0 <= k < |wire| :: StandsForAt(i, events, wire[k], k)
  }

  ghost predicate StandsForAt(i: Ideal, events: seq<Event>, event: WireEvent, k: nat)
    requires i.Ordered() && i.expected.Some? && k < |events|
  {
    events[k] == Unwrapped(Run(i, events[..k]).buffer.expected.value, event)
  }

  lemma StandsForLonger(i: Ideal, first: Event, rest: seq<Event>, wire: seq<WireEvent>)
    requires i.Ordered() && i.expected.Some? && wire != [] && first == Unwrapped(i.expected.value, wire[0])
    requires var next := Handle(i, first).buffer;
             next.Ordered() && next.expected.Some? && StandsFor(next, rest, wire[1..])
    ensures StandsFor(i, [first] + rest, wire)
  {
    var next := Handle(i, first).buffer;
    forall k | 0 <= k < |wire|
      ensures StandsForAt(i, [first] + rest, wire[k], k)
    {
      if k > 0 {
        var prefix := ([first] + rest)[..k];
        assert prefix[0] == first && prefix[1..] == rest[..k - 1];
        assert StandsForAt(next, rest, wire[1..][k - 1], k - 1);
      }
    }
  }

  /** Every run of the 32-bit buffer is, step for step, a run of the unbounded one. */
  lemma {:induction false} RunRefines(u: Buffer, i: Ideal, wire: seq<WireEvent>) returns (events: seq<Event>)
    requires Valid(u) && Represents(u, i) && i.Ordered() && i.expected.Some?
    ensures StandsFor(i, events, wire)
    ensures forall k | 0 <= k < |wire| :: wire[k].Receive? ==>
      events[k].Arrive? && events[k].packet == wire[k].packet
      && Wrap(events[k].position) == wire[k].packet.sequence
    ensures Represents(RunOnWire(u, wire).buffer, Run(i, events).buffer)
    ensures RunOnWire(u, wire).output == Erase(Run(i, events).output)
    decreases |wire|
  {
    events := [];
    if wire != [] {
      var first := Unwrapped(i.expected.value, wire[0]);
      HandleRefines(u, i, wire[0]);
      var rest := RunRefines(HandleOnWire(u, wire[0]).buffer, Handle(i, first).buffer, wire[1..]);
      if wire[0].Receive? {
        UnwrapWraps(i.expected.value, wire[0].packet.sequence);
      }
      StandsForLonger(i, first, rest, wire);
      events := [first] + rest;
      assert events[1..] == rest;
      EraseConcat(Handle(i, first).output, Run(Handle(i, first).buffer, rest).output);
    }
  }

  function PacketCount(output: seq<JitterOutput>): nat {
    if output == [] then 0 else (if output[0].Audio? then 1 else 0) + PacketCount(output[1..])
  }

  lemma {:induction false} EraseKeepsCount(output: seq<IdealOutput>)
    ensures PacketCount(Erase(output)) == AudioCount(output)
  {
    if output != [] {
      assert Erase(output)[1..] == Erase(output[1..]);
      EraseKeepsCount(output[1..]);
    }
  }

  /** Between two restarts, for any 32-bit numbers arriving: with each packet at the position
      nearest to the expected one, packets are played in increasing position, and each
      accepted packet is played once or still buffered. */
  lemma RunIsAccounted(u: Buffer, wire: seq<WireEvent>) returns (i: Ideal, events: seq<Event>)
    requires Valid(u) && u.expected.Some?
    ensures Represents(u, i) && i.Ordered() && i.expected == u.expected && i.lost == u.lost
    ensures StandsFor(i, events, wire)
    ensures Represents(RunOnWire(u, wire).buffer, Run(i, events).buffer)
    ensures RunOnWire(u, wire).output == Erase(Run(i, events).output)
    ensures Account(i, Run(i, events).output, Run(i, events).buffer, TakenInRun(i, events))
  {
    var e := u.expected.value;
    assert Wrap(e) == e;
    i := Lift(u, e);
    events := RunRefines(u, i, wire);
    RunAccount(i, events);
  }

  /** The expected number advances, modulo 2^32, by the packets played plus the losses,
      which the saturating counter adds up. */
  lemma RunBalances(u: Buffer, wire: seq<WireEvent>) returns (next: nat, losses: nat)
    requires Valid(u) && u.expected.Some?
    ensures next == u.expected.value + PacketCount(RunOnWire(u, wire).output) + losses
    ensures RunOnWire(u, wire).buffer.expected == Some(Wrap(next))
    ensures RunOnWire(u, wire).buffer.lost == SaturatingAdd(u.lost, losses)
  {
    var i, events := RunAgrees(u, wire);
    RunBalancesUnbounded(i, events);
    next := Run(i, events).buffer.expected.value;
    losses := Run(i, events).buffer.lost - i.lost;
    EraseKeepsCount(Run(i, events).output);
  }

  lemma RunAgrees(u: Buffer, wire: seq<WireEvent>) returns (i: Ideal, events: seq<Event>)
    requires Valid(u) && u.expected.Some?
    ensures i.Ordered() && i.expected == u.expected && i.lost == u.lost
    ensures RunOnWire(u, wire).output == Erase(Run(i, events).output)
    ensures RunOnWire(u, wire).buffer.lost == Saturate(Run(i, events).buffer.lost)
    ensures RunOnWire(u, wire).buffer.expected == Some(Wrap(Run(i, events).buffer.expected.value))
  {
    i, events := RunIsAccounted(u, wire);
    CountersAgree(RunOnWire(u, wire).buffer, Run(i, events).buffer);
  }

  lemma RunBalancesUnbounded(i: Ideal, events: seq<Event>)
    requires i.Ordered() && i.expected.Some?
    ensures var r := Run(i, events);
            && r.buffer.lost >= i.lost
            && r.buffer.expected == Some(i.expected.value + AudioCount(r.output) + (r.buffer.lost - i.lost))
  {
    RunAccount(i, events);
  }

  lemma CountersAgree(u: Buffer, i: Ideal)
    requires Represents(u, i) && i.expected.Some?
    ensures u.expected == Some(Wrap(i.expected.value)) && u.lost == Saturate(i.lost)
  {
  }
}
