/** How the phone's connection loop follows idle notices
    (android/app/src/main/rust/src/client.rs). */
module IdleClient {
  import opened Numbers
  import opened AudioPackets
  import opened JitterModel
  import ReceiverModel
  import opened Receiver

  const IDLE_DELAY_MS := 150

  datatype Client = Client(newest: Option<u32>, boundary: Option<u32>, deadline: Option<nat>, active: bool)

  function NewClient(): Client {
    Client(None, None, None, false)
  }

  /** The boundary at which an arriving packet restarts playback, if it does. */
  function RestartAt(c: Client, sequence: u32): Option<u32> {
    if c.boundary.Some? && !SequenceIsBefore(sequence, c.boundary.value) then c.boundary else None
  }

  /** What the loop remembers after a packet; `whole` tells if the pipeline took it. */
  function AfterPacket(c: Client, sequence: u32, whole: bool): Client {
    var c := if RestartAt(c, sequence).Some? then c.(boundary := None, deadline := None) else c;
    if !whole then c else
    c.(newest := if c.newest.None? || !SequenceIsBefore(sequence, c.newest.value) then Some(sequence) else c.newest,
       active := c.active || c.boundary.None?)
  }

  /** A packet that the pipeline refuses may end the pause, but is no sign of life: neither the
      newest number nor the activity changes. */
  lemma RefusedPacketsAreNotHeard(c: Client, sequence: u32)
    ensures var d := AfterPacket(c, sequence, false);
            && d.newest == c.newest && d.active == c.active
            && (d == c || (RestartAt(c, sequence).Some? && d.boundary.None? && d.deadline.None?))
  {
  }

  predicate Accepts(c: Client, next: u32) {
    c.newest.None? || SequenceIsBefore(c.newest.value, next)
  }

  function AfterNotice(c: Client, next: u32, now: nat): Client {
    if Accepts(c, next) then c.(boundary := Some(next), deadline := Some(now + IDLE_DELAY_MS)) else c
  }

  function AfterDeadline(c: Client): Client {
    if c.deadline.Some? then c.(deadline := None, active := false) else c
  }

  class ConnectedLoop {
    const pipeline: ReceiverPipeline
    var newestSequence: Option<u32>
    var idleBoundary: Option<u32>
    var idleDeadline: Option<nat>
    var audioActive: bool

    ghost function View(): Client
      reads this
    {
      Client(newestSequence, idleBoundary, idleDeadline, audioActive)
    }

    constructor (pipeline: ReceiverPipeline)
      ensures this.pipeline == pipeline && View() == NewClient()
    {
      this.pipeline := pipeline;
      newestSequence, idleBoundary, idleDeadline, audioActive := None, None, None, false;
    }

    method OnPacket(packet: AudioPacket)
      requires ReceiverModel.Valid(pipeline.View())
      modifies this, pipeline, pipeline.jitter, pipeline.ring
      ensures ReceiverModel.Valid(pipeline.View())
      ensures View() == AfterPacket(
                          old(View()), packet.sequence, ReceiverModel.WholePacket(old(pipeline.View()), packet))
      ensures pipeline.View() ==
        match RestartAt(old(View()), packet.sequence)
        case Some(boundary) => ReceiverModel.Handle(ReceiverModel.Resume(old(pipeline.View()), boundary), packet)
        case None => ReceiverModel.Handle(old(pipeline.View()), packet)
    {
      RestartIfReached(packet.sequence);
      var handled := pipeline.HandlePacket(packet);
      if handled {
        if newestSequence.None? || !SequenceIsBefore(packet.sequence, newestSequence.value) {
          newestSequence := Some(packet.sequence);
        }
        if idleBoundary.None? {
          audioActive := true;
        }
      }
    }

    /** The first packet at or past the boundary ends the pause there. */
    method RestartIfReached(sequence: u32)
      requires ReceiverModel.Valid(pipeline.View())
      modifies this, pipeline, pipeline.jitter, pipeline.ring
      ensures ReceiverModel.Valid(pipeline.View())
      ensures match RestartAt(old(View()), sequence)
              case Some(boundary) =>
                && View() == old(View()).(boundary := None, deadline := None)
                && pipeline.View() == ReceiverModel.Resume(old(pipeline.View()), boundary)
              case None => View() == old(View()) && pipeline.View() == old(pipeline.View())
    {
      if idleBoundary.Some? {
        var boundary := idleBoundary.value;
        if !SequenceIsBefore(sequence, boundary) {
          pipeline.Resume(boundary);
          idleBoundary, idleDeadline := None, None;
        }
      }
    }

    method OnAudioIdle(nextSequence: u32, now: nat)
      modifies this
      ensures View() == AfterNotice(old(View()), nextSequence, now)
    {
      if newestSequence.None? || SequenceIsBefore(newestSequence.value, nextSequence) {
        idleBoundary := Some(nextSequence);
        idleDeadline := Some(now + IDLE_DELAY_MS);
      }
    }

    method OnDeadline()
      requires idleDeadline.Some?
      modifies this
      ensures View() == AfterDeadline(old(View()))
    {
      idleDeadline := None;
      audioActive := false;
    }
  }
}
