/** The loop that sends one phone its audio: packets while there is sound, and an idle notice
    on the control channel when it falls silent (windows-server/src/network/server.rs). */
module AudioSender {
  import opened Numbers
  import opened AudioPackets
  import opened Model = PacketizerModel
  import P = Packetizer
  import S = Silence

  /** What the loop wakes up for: sending is switched off; a captured block arrives, with the
      gates as they stand when it is judged and when it is cut; or blocks were missed. */
  datatype Event =
    | SwitchedOff
    | Captured(block: PcmBlock, open: bool, enabled: bool, answers: nat -> Answer)
    | Lagged

  /** What leaves for the phone: a datagram that is tried, or a control message. */
  datatype Emission = Tried(packet: AudioPacket) | AudioIdle(nextSequence: u32)

  datatype Sender = Sender(detector: S.Detector, packetizer: Packetizer)

  datatype Stepped = Stepped(sender: Sender, emitted: seq<Emission>, failed: bool)

  predicate IsSilent(block: PcmBlock) {
    forall s <- block.samples :: s == 0
  }

  function AsTried(packets: seq<AudioPacket>): seq<Emission> {
    seq(|packets|, k requires 0 <= k < |packets| => Tried(packets[k]))
  }

  function Doze(s: Sender, heard: S.Heard): Stepped {
    var detector := S.Hear(s.detector, heard);
    if detector.idle && !s.detector.idle then
      Stepped(Sender(detector, s.packetizer.(tail := None)), [AudioIdle(s.packetizer.sequence)], false)
    else
      Stepped(Sender(detector, s.packetizer), [], false)
  }

  function Step(s: Sender, event: Event): Stepped {
    match event
    case SwitchedOff => Doze(s.(packetizer := s.packetizer.(tail := None)), S.Heard(0, true, false))
    case Lagged => Stepped(s.(packetizer := s.packetizer.(tail := None)), [], false)
    case Captured(block, open, enabled, answers) =>
      var dozed := Doze(s, S.Heard(block.timestamp, IsSilent(block), open));
      if dozed.sender.detector.idle then dozed
      else
        var sending := SendBlock(s.packetizer, block, enabled, answers);
        Stepped(Sender(dozed.sender.detector, sending.packetizer), AsTried(sending.tried), sending.failed)
  }

  class DatagramSender {
    const packetizer: P.Packetizer
    const silence: S.SilenceDetector

    ghost function View(): Sender
      reads packetizer, silence
    {
      Sender(silence.View(), packetizer.View())
    }

    constructor (frameDurationMs: Duration)
      ensures packetizer.Valid() && fresh(packetizer) && fresh(silence)
      ensures View() == Sender(S.Detector(None, false), Model.Packetizer(0, frameDurationMs, None))
    {
      packetizer := new P.Packetizer(frameDurationMs);
      silence := new S.SilenceDetector();
    }

    method OnSwitchedOff() returns (emitted: seq<Emission>)
      requires packetizer.Valid()
      modifies packetizer, silence
      ensures Stepped(View(), emitted, false) == Step(old(View()), SwitchedOff) && packetizer.Valid()
    {
      var _, becameIdle := silence.Update(0, true, false);
      packetizer.pendingTail := None;
      emitted := if becameIdle then [AudioIdle(packetizer.sequence)] else [];
    }

    method OnBlock(block: PcmBlock, open: bool, enabled: bool, answers: nat -> Answer)
      returns (emitted: seq<Emission>, failed: bool)
      requires packetizer.Valid() && IsBlock(block)
      modifies packetizer, silence
      ensures Stepped(View(), emitted, failed) == Step(old(View()), Captured(block, open, enabled, answers))
      ensures packetizer.Valid()
    {
      var send, becameIdle := silence.Update(block.timestamp, IsSilent(block), open);
      emitted, failed := [], false;
      if becameIdle {
        packetizer.pendingTail := None;
        emitted := [AudioIdle(packetizer.sequence)];
      }
      if !send {
        return;
      }
      var tried;
      tried, failed := packetizer.SendBlock(block, enabled, answers);
      emitted := AsTried(tried);
    }

    method OnLagged()
      requires packetizer.Valid()
      modifies packetizer
      ensures Stepped(View(), [], false) == Step(old(View()), Lagged) && packetizer.Valid()
    {
      packetizer.pendingTail := None;
    }
  }

  // ----- numbering -----

  /** A run of the loop, up to the failure that ends it. */
  function Run(s: Sender, events: seq<Event>): Stepped
    decreases |events|
  {
    if events == [] then Stepped(s, [], false) else
    var first := Step(s, events[0]);
    if first.failed then first else
    var rest := Run(first.sender, events[1..]);
    Stepped(rest.sender, first.emitted + rest.emitted, rest.failed)
  }

  function NumberOf(e: Emission): u32 {
    match e
    case Tried(packet) => packet.sequence
    case AudioIdle(next) => next
  }

  /** The packets tried among the first `i` emissions. */
  function PacketsBefore(log: seq<Emission>, i: nat): (n: nat)
    requires i <= |log|
    ensures n <= i
  {
    if i == 0 then 0 else PacketsBefore(log, i - 1) + if log[i - 1].Tried? then 1 else 0
  }

  /** Emission `i` is numbered by the packets tried before it. */
  ghost predicate IsNumbered(log: seq<Emission>, sequence: u32, i: nat)
    requires i < |log|
  {
    NumberOf(log[i]) == NumberAfter(sequence, PacketsBefore(log, i))
  }

  ghost predicate NumberedFrom(log: seq<Emission>, sequence: u32, next: u32) {
    && (forall i | 0 <= i < |log| :: IsNumbered(log, sequence, i))
    && next == NumberAfter(sequence, PacketsBefore(log, |log|))
  }

  lemma {:induction false} PacketsBeforeConcat(a: seq<Emission>, b: seq<Emission>, i: nat)
    requires i <= |a| + |b|
    ensures PacketsBefore(a + b, i)
            == if i <= |a| then PacketsBefore(a, i) else PacketsBefore(a, |a|) + PacketsBefore(b, i - |a|)
  {
    if i > 0 {
      PacketsBeforeConcat(a, b, i - 1);
    }
  }

  lemma NumberedConcat(a: seq<Emission>, b: seq<Emission>, sequence: u32, mid: u32, next: u32)
    requires NumberedFrom(a, sequence, mid) && NumberedFrom(b, mid, next)
    ensures NumberedFrom(a + b, sequence, next)
  {
    var log, n := a + b, PacketsBefore(a, |a|);
    forall i | 0 <= i < |log|
      ensures IsNumbered(log, sequence, i)
    {
      PacketsBeforeConcat(a, b, i);
      if i < |a| {
        assert IsNumbered(a, sequence, i);
      } else {
        assert IsNumbered(b, mid, i - |a|);
        NumberAfterInParts(sequence, n, PacketsBefore(b, i - |a|));
      }
    }
    PacketsBeforeConcat(a, b, |log|);
    NumberAfterInParts(sequence, n, PacketsBefore(b, |b|));
  }

  lemma {:induction false} AllTried(packets: seq<AudioPacket>, i: nat)
    requires i <= |packets|
    ensures PacketsBefore(AsTried(packets), i) == i
  {
    if i > 0 {
      AllTried(packets, i - 1);
    }
  }

  lemma BlockIsNumbered(p: Packetizer, block: PcmBlock, enabled: bool, answers: nat -> Answer)
    ensures var sending := SendBlock(p, block, enabled, answers);
            NumberedFrom(AsTried(sending.tried), p.sequence, sending.packetizer.sequence)
  {
    var pieces := Pieces(p, block);
    var tried := pieces[..Model.Tried(answers, |pieces|)];
    var sending := SendBlock(p, block, enabled, answers);
    forall i | 0 <= i < |sending.tried|
      ensures IsNumbered(AsTried(sending.tried), p.sequence, i)
    {
      NumberedAt(tried, p.sequence, i);
      AllTried(sending.tried, i);
    }
    AllTried(sending.tried, |sending.tried|);
  }

  lemma StepIsNumbered(s: Sender, event: Event)
    ensures NumberedFrom(Step(s, event).emitted, s.packetizer.sequence, Step(s, event).sender.packetizer.sequence)
  {
    if event.Captured? {
      BlockIsNumbered(s.packetizer, event.block, event.enabled, event.answers);
    }
  }

  /** Whatever the sender goes through, the `n`th packet it tries is numbered `n` from the
      first on, and an idle notice carries the number of the next one. */
  lemma {:induction false} RunIsNumbered(s: Sender, events: seq<Event>)
    ensures NumberedFrom(Run(s, events).emitted, s.packetizer.sequence, Run(s, events).sender.packetizer.sequence)
    decreases |events|
  {
    if events != [] {
      var first := Step(s, events[0]);
      StepIsNumbered(s, events[0]);
      if !first.failed {
        RunIsNumbered(first.sender, events[1..]);
        var rest := Run(first.sender, events[1..]);
        NumberedConcat(first.emitted, rest.emitted, s.packetizer.sequence, first.sender.packetizer.sequence,
                       rest.sender.packetizer.sequence);
      }
    }
  }

  lemma {:induction false} PacketsBeforeGrows(log: seq<Emission>, i: nat, j: nat)
    requires i <= j <= |log|
    ensures PacketsBefore(log, i) <= PacketsBefore(log, j)
    ensures i < j && log[i].Tried? ==> PacketsBefore(log, i) < PacketsBefore(log, j)
  {
    if i < j {
      PacketsBeforeGrows(log, i, j - 1);
    }
  }

  /** A sender that sleeps tries no packet, and it reports idleness exactly when it falls
      asleep. */
  lemma SleepingSendsNothing(s: Sender, event: Event)
    ensures Step(s, event).sender.detector.idle ==> forall e <- Step(s, event).emitted :: e.AudioIdle?
    ensures (exists e :: e in Step(s, event).emitted && e.AudioIdle?)
            <==> !s.detector.idle && Step(s, event).sender.detector.idle
  {
    var sequence := s.packetizer.sequence;
    assert AudioIdle(sequence) in [AudioIdle(sequence)];
  }
}
