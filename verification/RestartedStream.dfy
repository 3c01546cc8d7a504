/** What the phone's ring gets to hear after a restart: the packets from the boundary on
    (android/app/src/main/rust/src/receiver.rs:86-118). */
module RestartedStream {
  import opened Numbers
  import opened AudioPackets
  import J = JitterModel
  import JitterIdeal
  import opened JitterRefinement
  import opened JitterReordering
  import RingModel
  import opened ReceiverModel

  /** The pipeline once the packets at the positions `arrivals` have arrived in turn. */
  ghost function Feed(p: Pipeline, source: nat -> AudioPacket, arrivals: seq<nat>): (q: Pipeline)
    requires ReceiverModel.Valid(p)
    ensures ReceiverModel.Valid(q)
  {
    if arrivals == [] then p else
    var before := Feed(p, source, arrivals[..|arrivals| - 1]);
    HandleKeepsValid(before, source(arrivals[|arrivals| - 1]));
    Handle(before, source(arrivals[|arrivals| - 1]))
  }

  /** The samples that packets lo to hi - 1 carry, in order. */
  ghost function Carried(source: nat -> AudioPacket, lo: nat, hi: nat): seq<i16>
    decreases hi - lo
  {
    if lo >= hi then [] else Carried(source, lo, hi - 1) + Samples(source(hi - 1).payload)
  }

  ghost predicate AllWholePackets(p: Pipeline, source: nat -> AudioPacket) {
    forall k: nat :: |source(k).payload| == p.format.packetBytes
  }

  lemma {:induction false} PcmInParts(a: seq<J.JitterOutput>, b: seq<J.JitterOutput>, f: Format)
    ensures Pcm(a + b, f) == Pcm(a, f) + Pcm(b, f)
  {
    hide PcmOf;
    if b == [] {
      assert a + b == a && Pcm(a, f) + [] == Pcm(a, f);
    } else {
      var n, last := |b| - 1, PcmOf(b[|b| - 1], f);
      PcmInParts(a, b[..n], f);
      assert (a + b)[..|a| + n] == a + b[..n] && (a + b)[|a| + n] == b[n];
      Regroup(Pcm(a, f), Pcm(b[..n], f), last);
    }
  }

  lemma Regroup(a: seq<i16>, b: seq<i16>, c: seq<i16>)
    ensures a + b + c == a + (b + c)
  {
  }

  lemma PcmOfOne(packet: AudioPacket, f: Format)
    ensures Pcm([J.Audio(packet)], f) == Samples(packet.payload)
  {
    assert [J.Audio(packet)][..0] == [];
    assert [] + Samples(packet.payload) == Samples(packet.payload);
  }

  lemma {:induction false} StretchExtends(source: nat -> AudioPacket, lo: nat, hi: nat)
    requires lo < hi
    ensures Stretch(source, lo, hi) == Stretch(source, lo, hi - 1) + [JitterIdeal.IdealAudio(hi - 1, source(hi - 1))]
  {
    StretchConcat(source, lo, hi - 1, hi);
    assert Stretch(source, hi - 1, hi) == [JitterIdeal.IdealAudio(hi - 1, source(hi - 1))] + Stretch(source, hi, hi);
  }

  lemma EraseOne(n: nat, packet: AudioPacket)
    ensures Erase([JitterIdeal.IdealAudio(n, packet)]) == [J.Audio(packet)]
  {
  }

  lemma EmptyStretchIsCarried(source: nat -> AudioPacket, lo: nat, hi: nat, f: Format)
    requires lo >= hi
    ensures Pcm(Erase(Stretch(source, lo, hi)), f) == Carried(source, lo, hi)
  {
    hide Samples, PcmOf;
  }

  lemma {:induction false} StretchIsCarried(source: nat -> AudioPacket, lo: nat, hi: nat, f: Format)
    ensures Pcm(Erase(Stretch(source, lo, hi)), f) == Carried(source, lo, hi)
    decreases hi - lo
  {
    hide Erase, Stretch, Pcm, Samples;
    if lo >= hi {
      EmptyStretchIsCarried(source, lo, hi, f);
    } else {
      StretchIsCarried(source, lo, hi - 1, f);
      StretchExtends(source, lo, hi);
      EraseOne(hi - 1, source(hi - 1));
      EraseConcat(Stretch(source, lo, hi - 1), [JitterIdeal.IdealAudio(hi - 1, source(hi - 1))]);
      PcmInParts(Erase(Stretch(source, lo, hi - 1)), [J.Audio(source(hi - 1))], f);
      PcmOfOne(source(hi - 1), f);
    }
  }

  /** The arrivals are tolerable and near, from a restart at `b` on. */
  ghost predicate Bearable(p: Pipeline, source: nat -> AudioPacket, arrivals: seq<nat>, b: nat) {
    var u := p.jitter;
    && Numbered(source) && AllWholePackets(p, source) && Distinct(arrivals, b)
    && AlwaysTolerable(arrivals, b, u.target, u.maxPackets)
    && StaysInWindow(Restarted(b, u.target, u.maxPackets), source, arrivals)
  }

  lemma BearablePrefix(p: Pipeline, source: nat -> AudioPacket, arrivals: seq<nat>, b: nat)
    requires Bearable(p, source, arrivals, b) && arrivals != []
    ensures Bearable(p, source, arrivals[..|arrivals| - 1], b)
  {
    hide Tolerable, Deliver, InWindow, Numbered, AllWholePackets;
    var front := arrivals[..|arrivals| - 1];
    assert forall k | 0 <= k <= |front| :: front[..k] == arrivals[..k];
  }

  /** The pipeline after `arrivals`: the jitter buffer of the restart fed with them, its output
      in the ring, and no stutter to adapt to. */
  ghost predicate IsFed(p: Pipeline, source: nat -> AudioPacket, arrivals: seq<nat>, b: nat, q: Pipeline)
    requires ReceiverModel.Valid(p)
  {
    var start := Resume(p, Wrap(b));
    var d := DeliverOnWire(start.jitter, source, arrivals);
    && q.jitter == d.buffer && q.format == p.format
    && q.ring == start.ring.(queue := RingModel.Newest(Pcm(d.output, p.format), p.ring.capacity))
    && q.lastUnderruns == q.ring.underruns
  }

  lemma ResumeIsValid(p: Pipeline, n: u32)
    requires ReceiverModel.Valid(p)
    ensures ReceiverModel.Valid(Resume(p, n))
  {
  }

  lemma {:induction false} FeedIsFed(p: Pipeline, source: nat -> AudioPacket, arrivals: seq<nat>, b: nat)
    requires ReceiverModel.Valid(p) && Bearable(p, source, arrivals, b)
    ensures ReceiverModel.Valid(Resume(p, Wrap(b)))
    ensures IsFed(p, source, arrivals, b, Feed(Resume(p, Wrap(b)), source, arrivals))
  {
    ResumeIsValid(p, Wrap(b));
    var start := Resume(p, Wrap(b));
    if arrivals == [] {
      assert RingModel.Newest([], p.ring.capacity) == [];
    } else {
      var front := arrivals[..|arrivals| - 1];
      BearablePrefix(p, source, arrivals, b);
      FeedIsFed(p, source, front, b);
      ToleranceOnWire(p.jitter, source, front, b);
      ToleranceOnWire(p.jitter, source, arrivals, b);
      hide J.Push, Pcm, RingModel.Newest, DeliverOnWire, ReceiverModel.Valid, Handle, AlwaysTolerable, StaysInWindow;
      DeliverOneMore(start.jitter, source, arrivals);
      FedOneMore(Feed(start, source, front), source(arrivals[|arrivals| - 1]),
                 DeliverOnWire(start.jitter, source, front).output);
    }
  }

  lemma DeliverOneMore(u: J.Buffer, source: nat -> AudioPacket, arrivals: seq<nat>)
    requires J.Valid(u) && arrivals != []
    ensures var before := DeliverOnWire(u, source, arrivals[..|arrivals| - 1]);
            var now := J.Push(before.buffer, source(arrivals[|arrivals| - 1]));
            DeliverOnWire(u, source, arrivals) == J.Pushed(now.buffer, before.output + now.output)
  {
    hide J.Push;
  }

  lemma FedOneMore(q: Pipeline, packet: AudioPacket, done: seq<J.JitterOutput>)
    requires ReceiverModel.Valid(q) && |packet.payload| == q.format.packetBytes
    requires q.ring.queue == RingModel.Newest(Pcm(done, q.format), q.ring.capacity)
    requires q.ring.underruns == q.lastUnderruns && J.Push(q.jitter, packet).buffer.late == q.jitter.late
    ensures var pushed, h := J.Push(q.jitter, packet), Handle(q, packet);
            && h.jitter == pushed.buffer && h.format == q.format && h.lastUnderruns == h.ring.underruns
            && h.ring == q.ring.(
                 queue := RingModel.Newest(Pcm(done + pushed.output, q.format), q.ring.capacity))
  {
    hide J.Push, Pcm, RingModel.Newest, Handle;
    var pushed := J.Push(q.jitter, packet);
    QuietPacket(q, packet);
    PcmInParts(done, pushed.output, q.format);
    WrittenOn(Pcm(done, q.format), Pcm(pushed.output, q.format), q.ring.capacity);
  }

  /** Without stutter a packet only goes through, and the cooldown runs down. */
  lemma QuietPacket(q: Pipeline, packet: AudioPacket)
    requires ReceiverModel.Valid(q) && |packet.payload| == q.format.packetBytes
    requires q.ring.underruns <= q.lastUnderruns && J.Push(q.jitter, packet).buffer.late <= q.jitter.late
    ensures var pushed := J.Push(q.jitter, packet);
            Handle(q, packet) == q.(
              jitter := pushed.buffer, lastUnderruns := q.ring.underruns,
              ring := q.ring.(queue := RingModel.Newest(q.ring.queue + Pcm(pushed.output, q.format), q.ring.capacity)),
              cooldown := if q.cooldown > 0 then q.cooldown - 1 else 0)
  {
    hide J.Push, Pcm, RingModel.Newest;
  }

  lemma WrittenOn(a: seq<i16>, b: seq<i16>, capacity: nat)
    ensures RingModel.Newest(RingModel.Newest(a, capacity) + b, capacity) == RingModel.Newest(a + b, capacity)
  {
  }

  /** After a restart at any number, packets that arrive mildly reordered are heard completely and
      in order, starting with the boundary: the ring holds their samples, the newest if they
      exceed it, however many packets there are and whatever happened before. */
  lemma RestartedStreamIsWritten(p: Pipeline, source: nat -> AudioPacket, arrivals: seq<nat>, b: nat)
    requires ReceiverModel.Valid(p) && Numbered(source) && AllWholePackets(p, source)
    requires MildlyReordered(arrivals, b, p.jitter.target, p.jitter.maxPackets)
    requires p.jitter.target + p.jitter.maxPackets <= HALF_U32
    ensures ReceiverModel.Valid(Resume(p, Wrap(b)))
    ensures var q := Feed(Resume(p, Wrap(b)), source, arrivals);
            var heard := Carried(source, b, if |arrivals| < p.jitter.target then b else b + |arrivals|);
            && q.ring.queue == (if |heard| <= p.ring.capacity then heard else heard[|heard| - p.ring.capacity..])
            && q.ring.buffering && q.jitter.lost == p.jitter.lost && q.jitter.late == p.jitter.late
            && q.jitter.target == p.jitter.target
  {
    hide J.Push, Pcm, DeliverOnWire, MildlyReordered, Feed, Numbered, AllWholePackets, Carried, Stretch, Erase,
         Bearable;
    var u := p.jitter;
    MildIsBearable(p, source, arrivals, b);
    FeedIsFed(p, source, arrivals, b);
    MildReorderingOnWire(u, source, arrivals, b);
    StretchIsCarried(source, b, if |arrivals| < u.target then b else b + |arrivals|, p.format);
    TargetIsKept(J.Restart(u, Wrap(b)), source, arrivals);
  }

  lemma {:induction false} TargetIsKept(u: J.Buffer, source: nat -> AudioPacket, arrivals: seq<nat>)
    requires J.Valid(u)
    ensures DeliverOnWire(u, source, arrivals).buffer.target == u.target
  {
    if arrivals != [] {
      TargetIsKept(u, source, arrivals[..|arrivals| - 1]);
      J.PushKeepsValid(DeliverOnWire(u, source, arrivals[..|arrivals| - 1]).buffer, source(arrivals[|arrivals| - 1]));
    }
  }

  lemma MildIsBearable(p: Pipeline, source: nat -> AudioPacket, arrivals: seq<nat>, b: nat)
    requires ReceiverModel.Valid(p) && Numbered(source) && AllWholePackets(p, source)
    requires MildlyReordered(arrivals, b, p.jitter.target, p.jitter.maxPackets)
    requires p.jitter.target + p.jitter.maxPackets <= HALF_U32
    ensures Bearable(p, source, arrivals, b)
  {
    var u := p.jitter;
    forall k | 0 <= k < |arrivals|
      ensures InWindow(
                Deliver(Restarted(b, u.target, u.maxPackets), source, arrivals[..k]).buffer.expected, arrivals[k])
    {
      MildArrivalIsNear(source, arrivals, b, u.target, u.maxPackets, k);
    }
    MildIsTolerable(arrivals, b, u.target, u.maxPackets);
  }
}
