/** Whole runs of the phone's receive pipeline: any interleaving of arriving packets,
    restarts, playback reads and ring clears. */
module ReceiverRuns {
  import opened Numbers
  import opened AudioPackets
  import JitterModel
  import RingModel
  import opened ReceiverModel

  datatype Event =
    | Arrive(packet: AudioPacket)
    | Restart(nextSequence: u32)
    | Read(n: nat)
    | Clear

  ghost function Next(p: Pipeline, event: Event): Pipeline
    requires Valid(p)
  {
    match event
    case Arrive(packet) => Handle(p, packet)
    case Restart(nextSequence) => Resume(p, nextSequence)
    case Read(n) => p.(ring := RingModel.Read(p.ring, n).ring)
    case Clear => p.(ring := p.ring.(queue := []))
  }

  lemma NextKeepsValid(p: Pipeline, event: Event)
    requires Valid(p)
    ensures Valid(Next(p, event)) && Next(p, event).format == p.format
    ensures Next(p, event).ring.capacity == p.ring.capacity
  {
    if event.Arrive? {
      HandleKeepsValid(p, event.packet);
    }
  }

  /** An arriving packet of the right size. */
  predicate Delivers(f: Format, event: Event) {
    event.Arrive? && |event.packet.payload| == f.packetBytes
  }
}
