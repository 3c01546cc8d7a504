/** The phone's receive pipeline (android/app/src/main/rust/src/receiver.rs). */
module Receiver {
  import opened Numbers
  import opened AudioPackets
  import opened Model = ReceiverModel
  import JitterModel
  import opened Jitter
  import RingModel
  import opened Ring

  datatype SampleFormat = I16Le

  datatype StreamInfo = StreamInfo(sampleRate: u32, channels: u8, sampleFormat: SampleFormat, frameDurationMs: u8)

  class ReceiverPipeline {
    const jitter: JitterBuffer
    const ring: PcmRingBuffer
    const expectedPacketBytes: nat
    const samplesPerPacket: nat
    ghost const initialTargetPackets: u64
    const adjustmentPackets: u64
    const maximumTargetPackets: u64
    var adaptationCooldownPackets: nat
    const cooldownAfterAdjustmentPackets: nat
    var lastUnderruns: u64

    ghost function StreamFormat(): Format {
      Format(samplesPerPacket, expectedPacketBytes, initialTargetPackets, adjustmentPackets, maximumTargetPackets,
             cooldownAfterAdjustmentPackets)
    }

    ghost function View(): Pipeline
      reads this, jitter, ring
    {
      Pipeline(jitter.View(), ring.View(), StreamFormat(), adaptationCooldownPackets, lastUnderruns)
    }

    constructor (frameMs: FrameMs, ring: PcmRingBuffer)
      requires RingModel.Valid(ring.View())
      modifies ring
      ensures Model.Valid(View()) && this.ring == ring && fresh(jitter)
      ensures View() == New(FormatOf(frameMs), old(ring.View()))
    {
      FormatsAreSized(frameMs);
      var f := FormatOf(frameMs);
      this.ring := ring;
      jitter := new JitterBuffer(f.target);
      initialTargetPackets := f.target;
      samplesPerPacket := f.packetSamples;
      expectedPacketBytes := f.packetBytes;
      adjustmentPackets := f.step;
      maximumTargetPackets := f.maximum;
      adaptationCooldownPackets := f.cooldown;
      cooldownAfterAdjustmentPackets := f.cooldown;
      lastUnderruns := ring.underruns;
      new;
      NewIsValid(f, ring.View());
      ring.SetPlaybackTarget(TargetSamples(f.target, samplesPerPacket));
      ring.BeginBuffering();
    }

    /** `ReceiverPipeline::new`: only 48 kHz stereo in frames of at least 1 ms is accepted. */
    static method Create(stream: StreamInfo, ring: PcmRingBuffer) returns (pipeline: Option<ReceiverPipeline>)
      requires RingModel.Valid(ring.View())
      modifies ring
      ensures pipeline.Some? <==>
        stream.sampleRate == 48000 && stream.channels == 2 && stream.frameDurationMs != 0
      ensures pipeline.None? ==> ring.View() == old(ring.View())
      ensures pipeline.Some? ==>
        && Model.Valid(pipeline.value.View()) && pipeline.value.ring == ring
        && pipeline.value.View() == New(FormatOf(stream.frameDurationMs), old(ring.View()))
    {
      if stream.sampleRate != 48000 || stream.channels != 2 || stream.sampleFormat != I16Le
        || stream.frameDurationMs == 0
      {
        return None;
      }
      var samplesPerChannel := 48000 * stream.frameDurationMs;
      if samplesPerChannel % 1000 != 0 {
        return None;
      }
      var created := new ReceiverPipeline(stream.frameDurationMs, ring);
      pipeline := Some(created);
    }

    method Resume(nextSequence: u32)
      requires Model.Valid(View())
      modifies this, jitter, ring
      ensures View() == Model.Resume(old(View()), nextSequence) && Model.Valid(View())
    {
      jitter.Restart(nextSequence);
      ring.Clear();
      ring.BeginBuffering();
      lastUnderruns := ring.underruns;
      adaptationCooldownPackets := cooldownAfterAdjustmentPackets;
    }

    method HandlePacket(packet: AudioPacket) returns (accepted: bool)
      requires Model.Valid(View())
      modifies this, jitter, ring
      ensures View() == Handle(old(View()), packet) && Model.Valid(View())
      ensures accepted <==> WholePacket(old(View()), packet)
    {
      HandleKeepsValid(View(), packet);
      if |packet.payload| != expectedPacketBytes {
        return false;
      }
      ghost var before := View();
      var underruns := ring.underruns;
      var underrunDetected := underruns > lastUnderruns;
      lastUnderruns := underruns;
      var lateBefore := jitter.latePackets;
      var output := jitter.Push(packet);
      Play(output);
      var latePackets := jitter.latePackets;
      assert View() == Delivered(before, packet);
      AdjustJitterAfterStutter(underrunDetected || latePackets > lateBefore);
      return true;
    }

    /** The loop that hands the jitter output to the ring. */
    method Play(output: seq<JitterModel.JitterOutput>)
      requires RingModel.Valid(ring.View())
      modifies ring
      ensures ring.View() == RingModel.Write(old(ring.View()), Pcm(output, StreamFormat()))
      ensures RingModel.Valid(ring.View())
    {
      ghost var before := ring.View();
      assert output[..|output|] == output;
      for j := 0 to |output|
        invariant ring.View() == RingModel.Write(before, Pcm(output[..j], StreamFormat()))
        invariant RingModel.Valid(ring.View())
      {
        RingModel.WriteInParts(before, Pcm(output[..j], StreamFormat()), PcmOf(output[j], StreamFormat()));
        match output[j] {
          case Audio(packet) => ring.WritePcmLe(packet.payload);
          case Silence => ring.WriteSilence(samplesPerPacket);
        }
        assert output[..j + 1][..j] == output[..j];
      }
    }

    method AdjustJitterAfterStutter(stutterDetected: bool)
      requires JitterModel.Valid(jitter.View())
      modifies this, jitter, ring
      ensures View() == Adjust(old(View()), stutterDetected)
    {
      if adaptationCooldownPackets > 0 {
        adaptationCooldownPackets := adaptationCooldownPackets - 1;
      } else if stutterDetected && jitter.started {
        var raised := jitter.IncreaseTarget(adjustmentPackets, maximumTargetPackets);
        if raised {
          adaptationCooldownPackets := cooldownAfterAdjustmentPackets;
          ring.SetPlaybackTarget(TargetSamples(jitter.targetPackets, samplesPerPacket));
        }
      }
    }
  }
}
