/** Playback never swaps left and right. */
module StereoAlignment {
  import opened Numbers
  import opened AudioPackets
  import opened JitterModel
  import RingModel
  import opened ReceiverModel
  import opened ReceiverRuns

  /** What the event appends to the ring. */
  ghost function Appended(p: Pipeline, event: Event): seq<i16>
    requires ReceiverModel.Valid(p)
  {
    if Delivers(p.format, event) then Pcm(Push(p.jitter, event.packet).output, p.format) else []
  }

  lemma {:induction false} PcmIsWhole(p: Pipeline, output: seq<JitterOutput>)
    requires Sized(p.format) && OutputIsWhole(p, output)
    ensures |Pcm(output, p.format)| % 2 == 0
  {
    if output != [] {
      var n := |output| - 1;
      assert output[n] in output;
      PcmIsWhole(p, output[..n]);
      assert |PcmOf(output[n], p.format)| == p.format.packetSamples;
    }
  }

  lemma AppendedIsWhole(p: Pipeline, event: Event)
    requires ReceiverModel.Valid(p)
    ensures |Appended(p, event)| % 2 == 0
  {
    if Delivers(p.format, event) {
      PushKeepsWhole(p, event.packet);
      PcmIsWhole(p, Push(p.jitter, event.packet).output);
    }
  }

  /** The ring beside the whole stream that was written to it. */
  datatype Playback = Playback(ring: RingModel.Ring, stream: seq<i16>)

  /** What one event does to them when it appends `samples`. */
  ghost predicate Plays(a: Playback, event: Event, samples: seq<i16>, b: Playback) {
    && b.stream == a.stream + samples && b.ring.capacity == a.ring.capacity
    && match event
       case Arrive(_) => b.ring.queue == RingModel.Write(a.ring, samples).queue
       case Read(n) => b.ring == RingModel.Read(a.ring, n).ring && samples == []
       case _ => b.ring.queue == [] && samples == []
  }

  lemma NextPlays(p: Pipeline, event: Event, stream: seq<i16>)
    requires ReceiverModel.Valid(p)
    ensures Plays(Playback(p.ring, stream), event, Appended(p, event),
                  Playback(Next(p, event).ring, stream + Appended(p, event)))
  {
  }

  /** The ring and its stream before the first event and after each. */
  ghost function Trace(p: Pipeline, stream: seq<i16>, events: seq<Event>): (trace: seq<Playback>)
    requires ReceiverModel.Valid(p)
    ensures |trace| == |events| + 1
    decreases |events|
  {
    if events == [] then [Playback(p.ring, stream)] else
    NextKeepsValid(p, events[0]);
    [Playback(p.ring, stream)]
    + Trace(Next(p, events[0]), stream + Appended(p, events[0]), events[1..])
  }

  /** The ring holds the end of its stream, from a left sample on. */
  ghost predicate HoldsFrames(s: Playback) {
    && RingModel.Valid(s.ring) && s.ring.capacity % 2 == 0
    && |s.ring.queue| <= |s.stream| && s.ring.queue == s.stream[|s.stream| - |s.ring.queue|..]
    && |s.ring.queue| % 2 == 0 && |s.stream| % 2 == 0
  }

  ghost predicate ReadsFrames(event: Event) {
    event.Read? ==> event.n % 2 == 0
  }

  lemma WriteHoldsFrames(s: Playback, samples: seq<i16>)
    requires HoldsFrames(s) && |samples| % 2 == 0
    ensures var all, queue := s.stream + samples, RingModel.Write(s.ring, samples).queue;
            |queue| % 2 == 0 && |queue| <= |all| && queue == all[|all| - |queue|..]
  {
  }

  lemma ReadHoldsFrames(s: Playback, n: nat)
    requires HoldsFrames(s) && n % 2 == 0
    ensures var queue := RingModel.Read(s.ring, n).ring.queue;
            |queue| % 2 == 0 && |queue| <= |s.stream| && queue == s.stream[|s.stream| - |queue|..]
  {
  }

  lemma PlaysFrames(a: Playback, event: Event, samples: seq<i16>, b: Playback)
    requires HoldsFrames(a) && RingModel.Valid(b.ring) && Plays(a, event, samples, b)
    requires |samples| % 2 == 0 && ReadsFrames(event)
    ensures HoldsFrames(b)
  {
    match event
    case Arrive(_) => WriteHoldsFrames(a, samples);
    case Read(n) =>
      ReadHoldsFrames(a, n);
      assert a.stream + [] == a.stream;
    case _ =>
  }

  lemma {:induction false} RingHoldsFrames(p: Pipeline, stream: seq<i16>, events: seq<Event>)
    requires ReceiverModel.Valid(p) && HoldsFrames(Playback(p.ring, stream))
    requires forall e <- events :: ReadsFrames(e)
    ensures forall s <- Trace(p, stream, events) :: HoldsFrames(s)
    decreases |events|
  {
    if events != [] {
      NextPlays(p, events[0], stream);
      AppendedIsWhole(p, events[0]);
      NextKeepsValid(p, events[0]);
      var next := Next(p, events[0]);
      var longer := stream + Appended(p, events[0]);
      PlaysFrames(Playback(p.ring, stream), events[0], Appended(p, events[0]), Playback(next.ring, longer));
      RingHoldsFrames(next, longer, events[1..]);
      assert Trace(p, stream, events) == [Playback(p.ring, stream)] + Trace(next, longer, events[1..]);
    }
  }

  /** A read of `n` plays a run of the stream that starts at a left sample and ends after a
      right one, and then silence. */
  ghost predicate ReadsAligned(s: Playback, n: nat) {
    var read, first := RingModel.Read(s.ring, n), |s.stream| - |s.ring.queue|;
    && first % 2 == 0 && read.actual % 2 == 0 && 0 <= first <= first + read.actual <= |s.stream|
    && read.actual <= n
    && read.output == s.stream[first..first + read.actual] + Zeros(n - read.actual)
  }

  lemma TailPrefix(stream: seq<i16>, queue: seq<i16>, actual: nat)
    requires actual <= |queue| <= |stream| && queue == stream[|stream| - |queue|..]
    ensures var first := |stream| - |queue|; queue[..actual] == stream[first..first + actual]
  {
  }

  lemma FramesAreRead(s: Playback, n: nat)
    requires HoldsFrames(s) && n % 2 == 0
    ensures ReadsAligned(s, n)
  {
    TailPrefix(s.stream, s.ring.queue, RingModel.Read(s.ring, n).actual);
    assert RingModel.Read(s.ring, n).actual == 0 ==> Zeros(0) + Zeros(n) == Zeros(n);
  }

  /** In a ring of even capacity (9600 samples in the phone) and with reads of whole frames,
      every read is aligned, whatever was dropped, cleared or restarted before. */
  lemma PlaybackIsAligned(p: Pipeline, events: seq<Event>, trace: seq<Playback>, k: nat)
    requires ReceiverModel.Valid(p) && p.ring.capacity % 2 == 0 && p.ring.queue == []
    requires trace == Trace(p, [], events)
    requires forall e <- events :: ReadsFrames(e)
    requires k < |events| && events[k].Read?
    ensures ReadsAligned(trace[k], events[k].n)
  {
    RingHoldsFrames(p, [], events);
    assert trace[k] in trace && events[k] in events;
    FramesAreRead(trace[k], events[k].n);
  }

  /** The phone's own pipeline is such a one, for every frame duration. */
  lemma PhonePlaybackIsAligned(frameMs: FrameMs, events: seq<Event>, k: nat)
    requires forall e <- events :: ReadsFrames(e)
    requires k < |events| && events[k].Read?
    ensures ReceiverModel.Valid(ReceiverModel.New(FormatOf(frameMs), RingModel.New(PCM_RING_CAPACITY_SAMPLES)))
    ensures var p := ReceiverModel.New(FormatOf(frameMs), RingModel.New(PCM_RING_CAPACITY_SAMPLES));
            ReadsAligned(Trace(p, [], events)[k], events[k].n)
  {
    var p := ReceiverModel.New(FormatOf(frameMs), RingModel.New(PCM_RING_CAPACITY_SAMPLES));
    FormatsAreSized(frameMs);
    NewIsValid(FormatOf(frameMs), RingModel.New(PCM_RING_CAPACITY_SAMPLES));
    PlaybackIsAligned(p, events, Trace(p, [], events), k);
  }
}
