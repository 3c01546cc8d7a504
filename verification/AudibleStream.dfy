/** What a phone hears of what the server captures: the sender's loop, the way through the
    network with mild reordering, and the phone's pipeline
    (windows-server/src/network/server.rs:121-192, android/app/src/main/rust/src/receiver.rs:86-118). */
module AudibleStream {
  import opened Numbers
  import opened AudioPackets
  import opened PacketizerModel
  import S = Silence
  import opened AudioSender
  import Conservation = StreamConservation
  import R = ReceiverModel
  import RingModel
  import JitterRefinement
  import Reordering = JitterReordering
  import Restarted = RestartedStream

  // ----- the sender -----

  predicate IsAudible(block: PcmBlock) {
    exists s <- block.samples :: s != 0
  }

  /** A sender that is awake after a block has sent it; one that is asleep has not, and what was
      left of earlier blocks is gone when it falls asleep. Nothing fails by sleeping. */
  lemma AwakeSenderSends(s: Sender, block: PcmBlock, open: bool, enabled: bool, answers: nat -> Answer)
    ensures var d := Step(s, Captured(block, open, enabled, answers));
            var sent := SendBlock(s.packetizer, block, enabled, answers);
            if d.sender.detector.idle then
              && !d.failed && d.sender.packetizer.sequence == s.packetizer.sequence
              && d.sender.packetizer.duration == s.packetizer.duration
              && d.emitted == (if s.detector.idle then [] else [AudioIdle(s.packetizer.sequence)])
              && d.sender.packetizer.tail == (if s.detector.idle then s.packetizer.tail else None)
            else d.sender.packetizer == sent.packetizer && d.emitted == AsTried(sent.tried) && d.failed == sent.failed
    ensures open && IsAudible(block) ==> !Step(s, Captured(block, open, enabled, answers)).sender.detector.idle
    ensures !open ==> Step(s, Captured(block, open, enabled, answers)).sender.detector.idle
  {
  }

  /** Switching off puts the sender to sleep, missed blocks leave it as it was, and both drop what
      was left of earlier blocks. */
  lemma GapsDropTails(s: Sender)
    ensures var off := Step(s, SwitchedOff);
            && off.sender == Sender(S.Detector(None, true), s.packetizer.(tail := None)) && !off.failed
            && off.emitted == (if s.detector.idle then [] else [AudioIdle(s.packetizer.sequence)])
    ensures Step(s, Lagged) == Stepped(Sender(s.detector, s.packetizer.(tail := None)), [], false)
  {
  }

  /** The captured blocks of a run as events of the loop, with both gates open. */
  function AsCaptured(run: seq<Conservation.Delivery>): seq<Event> {
    seq(|run|, k requires 0 <= k < |run| => Captured(run[k].block, true, true, run[k].answers))
  }

  ghost predicate AllAudible(run: seq<Conservation.Delivery>) {
    forall d <- run :: IsAudible(d.block)
  }

  lemma {:induction false} RunInParts(s: Sender, events: seq<Event>, last: Event)
    requires !Run(s, events).failed
    ensures Run(s, events + [last])
         == var before, step := Run(s, events), Step(Run(s, events).sender, last);
            Stepped(step.sender, before.emitted + step.emitted, step.failed)
    decreases |events|
  {
    hide Step;
    if events == [] {
      assert ([] + [last])[1..] == [];
      assert Step(s, last).emitted + [] == Step(s, last).emitted;
      assert [] + Step(s, last).emitted == Step(s, last).emitted;
    } else {
      var first := Step(s, events[0]);
      assert (events + [last])[1..] == events[1..] + [last];
      RunInParts(first.sender, events[1..], last);
      var rest := Run(first.sender, events[1..]);
      Regroup(first.emitted, rest.emitted, Step(rest.sender, last).emitted);
    }
  }

  lemma Regroup<T>(a: seq<T>, b: seq<T>, c: seq<T>)
    ensures a + b + c == a + (b + c)
  {
  }

  lemma TriedInParts(a: seq<AudioPacket>, b: seq<AudioPacket>)
    ensures AsTried(a + b) == AsTried(a) + AsTried(b)
  {
  }

  /** While there is sound the loop sends every block, and its emissions are the packets of the
      whole run. */
  lemma {:induction false} SoundIsSent(s: Sender, run: seq<Conservation.Delivery>)
    requires AllAudible(run) && forall d <- run :: Conservation.FullySent(d)
    ensures var r, sent := Run(s, AsCaptured(run)), Conservation.Run(s.packetizer, run);
            && !r.failed && r.emitted == AsTried(sent.tried) && r.sender.packetizer == sent.packetizer
            && (run != [] ==> !r.sender.detector.idle)
  {
    if run != [] {
      var n := |run| - 1;
      var front, d := run[..n], run[n];
      assert d in run;
      SoundIsSent(s, front);
      var before := Conservation.Run(s.packetizer, front);
      var event := Captured(d.block, true, true, d.answers);
      assert AsCaptured(run) == AsCaptured(front) + [event];
      RunInParts(s, AsCaptured(front), event);
      AwakeSenderSends(Run(s, AsCaptured(front)).sender, d.block, true, true, d.answers);
      Conservation.FullySentBlock(before.packetizer, d);
      TriedInParts(before.tried, Conservation.Send(before.packetizer, d).tried);
    }
  }

  // ----- the phone -----

  /** A packet for every position, the tried ones from `b` on. */
  ghost function SourceOf(tried: seq<AudioPacket>, b: nat, bytes: nat): nat -> AudioPacket {
    (k: nat) => if b <= k < b + |tried| then tried[k - b]
                else AudioPacket(JitterRefinement.Wrap(k), 0, seq(bytes, _ => 0))
  }

  /** The packets of a contiguous run, numbered from position `b` on. */
  lemma SourceIsNumbered(p: Packetizer, run: seq<Conservation.Delivery>, b: nat)
    requires Conservation.Contiguous(run) && run != [] && Valid(p) && p.tail.None?
    requires p.sequence == JitterRefinement.Wrap(b)
    ensures var tried := Conservation.Run(p, run).tried;
            var source := SourceOf(tried, b, 2 * SamplesPerPacket(p.duration));
            && Reordering.Numbered(source)
            && forall k: nat :: |source(k).payload| == 2 * SamplesPerPacket(p.duration)
  {
    hide Conservation.Run, Conservation.Contiguous, SamplesPerPacket, JitterRefinement.Wrap;
    var tried := Conservation.Run(p, run).tried;
    var source := SourceOf(tried, b, 2 * SamplesPerPacket(p.duration));
    forall k: nat
      ensures source(k).sequence == JitterRefinement.Wrap(k)
      ensures |source(k).payload| == 2 * SamplesPerPacket(p.duration)
    {
      if b <= k < b + |tried| {
        TriedIsNumbered(p, run, b, k - b);
      }
    }
  }

  lemma TriedIsNumbered(p: Packetizer, run: seq<Conservation.Delivery>, b: nat, k: nat)
    requires Conservation.Contiguous(run) && run != [] && Valid(p) && p.tail.None?
    requires p.sequence == JitterRefinement.Wrap(b) && k < |Conservation.Run(p, run).tried|
    ensures var packet := Conservation.Run(p, run).tried[k];
            && packet.sequence == JitterRefinement.Wrap(b + k)
            && |packet.payload| == 2 * SamplesPerPacket(p.duration)
  {
    Conservation.ContiguousRun(p, run);
    var stream, size := Conservation.Stream(run), SamplesPerPacket(p.duration);
    var pieces := Cut(stream, run[0].block.timestamp, size);
    NumberedAt(pieces, p.sequence, k);
    PieceIsWhole(stream, run[0].block.timestamp, size, k);
    SamplesOfPayload(pieces[k].samples);
    Conservation.NumbersWrap(p.sequence, k);
    WrapsOn(b, k);
  }

  lemma {:induction false} PieceIsWhole(samples: seq<i16>, timestamp: u64, size: nat, k: nat)
    requires size > 0 && k < |Cut(samples, timestamp, size)|
    ensures |Cut(samples, timestamp, size)[k].samples| == size
  {
    CutSplits(samples, timestamp, size);
    if k > 0 {
      PieceIsWhole(samples[size..], Advance(timestamp, size), size, k - 1);
    }
  }

  lemma WrapsOn(b: nat, k: nat)
    ensures JitterRefinement.Wrap(b + k) == (JitterRefinement.Wrap(b) + k) % U32_MODULUS
  {
  }

  lemma {:induction false} CarriedAgree(tried: seq<AudioPacket>, b: nat, bytes: nat, n: nat)
    requires n <= |tried|
    ensures Restarted.Carried(SourceOf(tried, b, bytes), b, b + n) == Conservation.Carried(tried[..n])
  {
    if n > 0 {
      CarriedAgree(tried, b, bytes, n - 1);
      assert tried[..n][..n - 1] == tried[..n - 1];
    }
  }

  /** The last `capacity` samples, or all. */
  function Latest(samples: seq<i16>, capacity: nat): seq<i16> {
    if |samples| <= capacity then samples else samples[|samples| - capacity..]
  }

  /** The packets of the run reach the phone, mildly reordered, and all of them. */
  ghost predicate Reach(tried: seq<AudioPacket>, p: R.Pipeline, arrivals: seq<nat>, b: nat) {
    && Reordering.MildlyReordered(arrivals, b, p.jitter.target, p.jitter.maxPackets)
    && p.jitter.target + p.jitter.maxPackets <= HALF_U32
    && |arrivals| == |tried| >= p.jitter.target
  }

  lemma TriedIsHeard(packetizer: Packetizer, run: seq<Conservation.Delivery>, p: R.Pipeline, arrivals: seq<nat>, b: nat)
    requires Valid(packetizer) && packetizer.tail.None? && packetizer.sequence == JitterRefinement.Wrap(b)
    requires Conservation.Contiguous(run) && run != []
    requires R.Valid(p) && p.format.packetBytes == 2 * SamplesPerPacket(packetizer.duration)
    requires Reach(Conservation.Run(packetizer, run).tried, p, arrivals, b)
    ensures R.Valid(R.Resume(p, JitterRefinement.Wrap(b)))
    ensures var tried := Conservation.Run(packetizer, run).tried;
            var source := SourceOf(tried, b, p.format.packetBytes);
            Restarted.Feed(R.Resume(p, JitterRefinement.Wrap(b)), source, arrivals).ring.queue
            == Latest(Conservation.Carried(tried), p.ring.capacity)
  {
    hide Conservation.Run, Restarted.Feed, Reordering.MildlyReordered, Conservation.Carried, Reordering.Numbered,
         Restarted.Carried, Conservation.Contiguous, R.Resume, SourceOf, R.Valid;
    var tried, bytes := Conservation.Run(packetizer, run).tried, p.format.packetBytes;
    SourceIsNumbered(packetizer, run, b);
    Restarted.RestartedStreamIsWritten(p, SourceOf(tried, b, bytes), arrivals, b);
    CarriedAgree(tried, b, bytes, |tried|);
    assert tried[..|tried|] == tried;
  }

  /** From the microphone of the one to the loudspeaker of the other: while there is sound, what the
      server captures is what the phone's ring holds. The sender's number was the phone's restart
      position when the sound began, and all packets arrive, mildly reordered. Then the ring holds
      what the packets carry, or the newest of it that fits, however long it lasts; and that is the
      captured stream up to what does not fill a packet. */
  lemma HeardIsCaptured(s: Sender, run: seq<Conservation.Delivery>, p: R.Pipeline, arrivals: seq<nat>, b: nat)
    requires Valid(s.packetizer) && s.packetizer.tail.None? && s.packetizer.sequence == JitterRefinement.Wrap(b)
    requires Conservation.Contiguous(run) && run != [] && AllAudible(run)
    requires R.Valid(p) && p.format == R.FormatOf(s.packetizer.duration)
    requires Reach(Conservation.Run(s.packetizer, run).tried, p, arrivals, b)
    ensures R.Valid(R.Resume(p, JitterRefinement.Wrap(b)))
    ensures var sent, tried := Run(s, AsCaptured(run)), Conservation.Run(s.packetizer, run).tried;
            var source := SourceOf(tried, b, p.format.packetBytes);
            && sent.emitted == AsTried(tried) && !sent.failed
            && Restarted.Feed(R.Resume(p, JitterRefinement.Wrap(b)), source, arrivals).ring.queue
               == Latest(Conservation.Carried(tried), p.ring.capacity)
            && Conservation.Carried(tried) + Conservation.TailOf(sent.sender.packetizer) == Conservation.Stream(run)
            && |Conservation.TailOf(sent.sender.packetizer)|
               <= (if s.packetizer.duration == 4 then FOUR_MS_TAIL_SAMPLES else 0)
  {
    hide Run, Restarted.Feed, R.Valid, Reach, AllAudible, R.Resume, SourceOf, AsTried, AsCaptured, Latest;
    SoundIsSent(s, run);
    Conservation.StreamIsConserved(s.packetizer, run);
    FormatsAgree(s.packetizer.duration);
    TriedIsHeard(s.packetizer, run, p, arrivals, b);
  }

  lemma FormatsAgree(ms: Duration)
    ensures R.FormatOf(ms).packetBytes == 2 * SamplesPerPacket(ms)
  {
  }
}
