/** What the jitter buffer over unbounded positions loses, plays and keeps.

    One drain puts out a bounded run of fillers and then packets. Over a run the expected
    position advances by what was played and what was counted lost, in order, and every
    accepted packet is played once or still waits (android/app/src/main/rust/src/jitter.rs). */
module JitterLaws {
  import opened Numbers
  import opened AudioPackets
  import opened JitterModel
  import opened JitterIdeal

  function AudioCount(output: seq<IdealOutput>): nat {
    if output == [] then 0 else
    (if output[0].IdealAudio? then 1 else 0) + AudioCount(output[1..])
  }

  lemma {:induction false} AudioCountConcat(a: seq<IdealOutput>, b: seq<IdealOutput>)
    ensures AudioCount(a + b) == AudioCount(a) + AudioCount(b)
  {
    if a == [] {
      assert a + b == b;
    } else {
      assert (a + b)[1..] == a[1..] + b;
      AudioCountConcat(a[1..], b);
    }
  }

  ghost predicate AllAudio(output: seq<IdealOutput>) {
    forall o <- output :: o.IdealAudio?
  }

  /** At most `silences` fillers followed by at most `audios` packets. */
  ghost predicate SilenceThenAudio(output: seq<IdealOutput>, silences: nat, audios: nat) {
    if output == [] then true
    else if output[0].IdealSilence? then silences > 0 && SilenceThenAudio(output[1..], silences - 1, audios)
    else |output| <= audios && AllAudio(output)
  }

  lemma {:induction false} Widen(
    output: seq<IdealOutput>, silences: nat, audios: nat, moreSilences: nat, moreAudios: nat)
    requires SilenceThenAudio(output, silences, audios) && silences <= moreSilences && audios <= moreAudios
    ensures SilenceThenAudio(output, moreSilences, moreAudios)
  {
    if output != [] && output[0].IdealSilence? {
      Widen(output[1..], silences - 1, audios, moreSilences - 1, moreAudios);
    }
  }

  /** While fewer than `target` packets are buffered the drain loop fills nothing in. */
  lemma {:induction false} DrainBelowTarget(i: Ideal)
    requires i.Ordered() && |i.packets| < i.target <= i.maxPackets
    ensures AllAudio(IdealDrain(i).output) && |IdealDrain(i).output| <= |i.packets|
    ensures |IdealDrain(i).buffer.packets| < i.target
    decreases |i.packets|, Distance(i)
  {
    match Turn(i)
    case Halt =>
    case Advance(next, output) =>
      DrainBelowTarget(next);
  }

  ghost function SilenceBound(i: Ideal): nat
    requires i.Ordered()
  {
    if Distance(i) <= i.maxPackets then Distance(i) else 0
  }

  lemma WaitingTurnBound(i: Ideal)
    requires i.Ordered() && |i.packets| == i.target <= i.maxPackets && 1 <= i.target
    requires i.expected.Some? && i.expected.value !in i.packets
    ensures Turn(i).Advance? && Turn(i).buffer.packets == i.packets
    ensures Turn(i).buffer == i.(expected := Turn(i).buffer.expected, lost := Turn(i).buffer.lost)
    ensures Turn(i).output == [] ==> SilenceBound(Turn(i).buffer) == 0 == SilenceBound(i)
    ensures Turn(i).output != [] ==>
      Turn(i).output == [IdealSilence] && SilenceBound(Turn(i).buffer) == SilenceBound(i) - 1
  {
  }

  /** One drain puts out a bounded run of fillers and then only packets, and leaves
      fewer than `target` packets, however wide the gap. */
  lemma {:induction false} DrainIsBounded(i: Ideal)
    requires i.Ordered() && |i.packets| <= i.target <= i.maxPackets && 1 <= i.target
    ensures SilenceThenAudio(IdealDrain(i).output, SilenceBound(i), |i.packets|)
    ensures |IdealDrain(i).buffer.packets| < i.target
    decreases |i.packets|, Distance(i)
  {
    if |i.packets| < i.target {
      DrainBelowTarget(i);
    } else if i.expected.value in i.packets {
      DrainBelowTarget(Turn(i).buffer);
    } else {
      WaitingTurnBound(i);
      var Advance(next, output) := Turn(i);
      DrainIsBounded(next);
      var rest := IdealDrain(next).output;
      if output == [] {
        assert output + rest == rest;
      } else {
        assert (output + rest)[1..] == rest;
      }
    }
  }

  /** What one push may put out and leave behind. */
  lemma PushIsBounded(i: Ideal, n: int, packet: AudioPacket)
    requires i.Valid() && (i.expected.None? ==> n >= 0)
    ensures |IdealPush(i, n, packet).buffer.packets| < i.target
    ensures SilenceThenAudio(IdealPush(i, n, packet).output, i.maxPackets, i.target)
  {
    var e: nat := match i.expected case Some(e) => e case None => n;
    if n !in i.packets && n >= e {
      var accepted := i.(expected := Some(e), packets := i.packets[n := packet]);
      assert |accepted.packets| == |i.packets| + 1;
      var started := accepted.(started := true);
      DrainIsBounded(started);
      Widen(IdealDrain(started).output, SilenceBound(started), |started.packets|, i.maxPackets, i.target);
    }
  }

  // ---------------------------------------------------------------- accounting

  /** Played packets come in strictly increasing position within [lo, hi). */
  ghost predicate InOrder(output: seq<IdealOutput>, lo: nat, hi: nat) {
    && (forall j | 0 <= j < |output| && output[j].IdealAudio? :: lo <= output[j].position < hi)
    && (forall j, l | 0 <= j < l < |output| && output[j].IdealAudio? && output[l].IdealAudio? ::
          output[j].position < output[l].position)
  }

  /** The account of a run from `before` to `after` that put out `output`, where
      `taken` are the packets buffered before and those accepted on the way. */
  ghost predicate Account(before: Ideal, output: seq<IdealOutput>, after: Ideal, taken: map<nat, AudioPacket>) {
    && before.expected.Some? && after.expected.Some?
    && before.expected.value <= after.expected.value && before.lost <= after.lost
    // every step of the expected position is a played packet or a counted loss
    && after.expected.value - before.expected.value == AudioCount(output) + (after.lost - before.lost)
    && InOrder(output, before.expected.value, after.expected.value)
    && Settled(output, before.expected.value, after.expected.value, after.packets, taken)
  }

  /** A taken packet has been played or is still buffered, never both. */
  ghost predicate Settled(
    output: seq<IdealOutput>, lo: nat, hi: nat, buffered: map<nat, AudioPacket>, taken: map<nat, AudioPacket>)
  {
    && (forall o <- output :: o.IdealAudio? ==> o.position in taken && taken[o.position] == o.packet)
    && (forall k <- taken :: lo <= k
          && (k < hi ==> IdealAudio(k, taken[k]) in output)
          && (k in buffered <==> k >= hi))
    && (forall k <- buffered :: k in taken && taken[k] == buffered[k])
  }

  lemma SettledComposes(
    o1: seq<IdealOutput>, lo: nat, mid: nat, b: map<nat, AudioPacket>, t1: map<nat, AudioPacket>,
    o2: seq<IdealOutput>, hi: nat, c: map<nat, AudioPacket>, t2: map<nat, AudioPacket>)
    requires Settled(o1, lo, mid, b, t1) && Settled(o2, mid, hi, c, t2) && lo <= mid <= hi
    requires forall k <- b :: k in t2 && t2[k] == b[k]
    ensures Settled(o1 + o2, lo, hi, c, t1 + t2)
  {
  }

  lemma InOrderConcat(o1: seq<IdealOutput>, lo: nat, mid: nat, o2: seq<IdealOutput>, hi: nat)
    requires InOrder(o1, lo, mid) && InOrder(o2, mid, hi) && lo <= mid <= hi
    ensures InOrder(o1 + o2, lo, hi)
  {
  }

  lemma AccountComposes(
    a: Ideal, o1: seq<IdealOutput>, b: Ideal, t1: map<nat, AudioPacket>,
    o2: seq<IdealOutput>, c: Ideal, t2: map<nat, AudioPacket>)
    requires Account(a, o1, b, t1) && Account(b, o2, c, t2)
    requires forall k <- b.packets :: k in t2 && t2[k] == b.packets[k]
    ensures Account(a, o1 + o2, c, t1 + t2)
  {
    var lo, mid, hi := a.expected.value, b.expected.value, c.expected.value;
    AudioCountConcat(o1, o2);
    InOrderConcat(o1, lo, mid, o2, hi);
    SettledComposes(o1, lo, mid, b.packets, t1, o2, hi, c.packets, t2);
  }

  /** One turn of the drain loop keeps the account. */
  lemma TurnAccount(i: Ideal)
    requires i.Ordered() && Turn(i).Advance?
    ensures Account(i, Turn(i).output, Turn(i).buffer, i.packets)
  {
  }

  lemma TurnAddsNothing(i: Ideal)
    requires i.Ordered() && Turn(i).Advance?
    ensures i.packets + Turn(i).buffer.packets == i.packets
  {
  }

  lemma {:induction false} DrainAccount(i: Ideal)
    requires i.Ordered() && i.expected.Some?
    ensures Account(i, IdealDrain(i).output, IdealDrain(i).buffer, i.packets)
    decreases |i.packets|, Distance(i)
  {
    match Turn(i)
    case Halt =>
    case Advance(next, output) =>
      TurnAccount(i);
      TurnAddsNothing(i);
      DrainAccount(next);
      AccountComposes(i, output, next, i.packets,
                      IdealDrain(next).output, IdealDrain(next).buffer, next.packets);
  }

  datatype Event = Arrive(position: int, packet: AudioPacket) | Raise(additional: u64, maximum: u64)

  ghost function Handle(i: Ideal, event: Event): IdealPushed
    requires i.Ordered() && i.expected.Some?
  {
    match event
    case Arrive(n, packet) => IdealPush(i, n, packet)
    case Raise(additional, maximum) => IdealPushed(IdealIncreaseTarget(i, additional, maximum), [])
  }

  /** The packets in play once `event` is handled: those buffered and the accepted one. */
  ghost function Taken(i: Ideal, event: Event): map<nat, AudioPacket>
    requires i.expected.Some?
  {
    if event.Arrive? && event.position !in i.packets && event.position >= i.expected.value
    then i.packets[event.position := event.packet]
    else i.packets
  }

  lemma HandleAccount(i: Ideal, event: Event)
    requires i.Ordered() && i.expected.Some?
    ensures var r := Handle(i, event);
            Account(i, r.output, r.buffer, Taken(i, event)) && r.buffer.Ordered()
  {
    match event
    case Raise(_, _) =>
    case Arrive(n, packet) =>
      if n !in i.packets && n >= i.expected.value {
        DrainAccount(i.(packets := i.packets[n := packet], started := true));
      }
  }

  ghost function Run(i: Ideal, events: seq<Event>): IdealPushed
    requires i.Ordered() && i.expected.Some?
    ensures Run(i, events).buffer.Ordered() && Run(i, events).buffer.expected.Some?
    decreases |events|
  {
    if events == [] then IdealPushed(i, []) else
    HandleAccount(i, events[0]);
    var first := Handle(i, events[0]);
    var rest := Run(first.buffer, events[1..]);
    IdealPushed(rest.buffer, first.output + rest.output)
  }

  ghost function TakenInRun(i: Ideal, events: seq<Event>): map<nat, AudioPacket>
    requires i.Ordered() && i.expected.Some?
    decreases |events|
  {
    if events == [] then i.packets else
    HandleAccount(i, events[0]);
    Taken(i, events[0]) + TakenInRun(Handle(i, events[0]).buffer, events[1..])
  }

  /** Between two restarts, over any arrivals and target raises: the expected position
      advances by the packets played plus the losses counted, packets are played in
      increasing position, and each accepted packet is played once or still buffered. */
  lemma {:induction false} RunAccount(i: Ideal, events: seq<Event>)
    requires i.Ordered() && i.expected.Some?
    ensures Account(i, Run(i, events).output, Run(i, events).buffer, TakenInRun(i, events))
    ensures forall k <- i.packets :: k in TakenInRun(i, events) && TakenInRun(i, events)[k] == i.packets[k]
    decreases |events|
  {
    if events != [] {
      HandleAccount(i, events[0]);
      var first := Handle(i, events[0]);
      RunAccount(first.buffer, events[1..]);
      var rest := Run(first.buffer, events[1..]);
      var t1, t2 := Taken(i, events[0]), TakenInRun(first.buffer, events[1..]);
      AccountComposes(i, first.output, first.buffer, t1, rest.output, rest.buffer, t2);
      forall k | k in i.packets
        ensures (t1 + t2)[k] == i.packets[k]
      {
        assert k in t1 && (k in t2 ==> k in first.buffer.packets);
      }
    }
  }
}
