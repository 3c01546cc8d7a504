/** The PCM ring taken apart into its atomic queue operations: the one producer's push,
    eviction and retry interleave in any way with the pops of playback and of `clear`
    (android/app/src/main/rust/src/ring_buffer.rs). */
module ConcurrentRing {
  import opened Numbers
  import RingModel

  /** Where the producer stands inside `push_latest`. */
  datatype Producer = Ready | Evicting(sample: i16) | Retrying(sample: i16)

  /** The queue with its history: all samples that entered it, the places in that history
      which playback popped, what playback got, and how many samples others popped. */
  datatype State = State(
    queue: seq<i16>,
    capacity: nat,
    producer: Producer,
    written: seq<i16>,
    heard: seq<nat>,
    played: seq<i16>,
    evicted: nat,
    cleared: nat,
    refused: nat)

  function Start(capacity: nat): State {
    State([], capacity, Ready, [], [], [], 0, 0, 0)
  }

  /** How many samples were popped, which is the place of the oldest one queued. */
  function Popped(s: State): nat {
    |s.played| + s.evicted + s.cleared
  }

  datatype Step =
    | Push(sample: i16)
    | Evict
    | Retry
    | Play
    | Clear

  function Enter(s: State, sample: i16): State {
    s.(queue := s.queue + [sample], written := s.written + [sample], producer := Ready)
  }

  function Next(s: State, step: Step): State {
    match step
    case Push(sample) =>
      if !s.producer.Ready? then s
      else if |s.queue| < s.capacity then Enter(s, sample)
      else s.(producer := Evicting(sample))
    case Evict =>
      if !s.producer.Evicting? then s
      else
        var s := s.(producer := Retrying(s.producer.sample));
        if s.queue == [] then s else s.(queue := s.queue[1..], evicted := s.evicted + 1)
    case Retry =>
      if !s.producer.Retrying? then s
      else if |s.queue| < s.capacity then Enter(s, s.producer.sample)
      else s.(producer := Ready, refused := s.refused + 1)
    case Play =>
      if s.queue == [] then s
      else s.(queue := s.queue[1..], played := s.played + [s.queue[0]],
              heard := s.heard + [Popped(s)])
    case Clear =>
      if s.queue == [] then s
      else s.(queue := s.queue[1..], cleared := s.cleared + 1)
  }

  function Run(s: State, steps: seq<Step>): State
    decreases |steps|
  {
    if steps == [] then s else Run(Next(s, steps[0]), steps[1..])
  }

  /** Playback got samples of the written stream, in written order, none twice. */
  ghost predicate InWrittenOrder(s: State, upTo: nat) {
    && |s.heard| == |s.played| && upTo <= |s.written|
    && (forall j | 0 <= j < |s.heard| :: s.heard[j] < upTo && s.played[j] == s.written[s.heard[j]])
    && (forall j, l | 0 <= j < l < |s.heard| :: s.heard[j] < s.heard[l])
  }

  ghost predicate Safe(s: State) {
    && 0 < s.capacity
    // the bound holds and no sample was turned away
    && |s.queue| <= s.capacity && s.refused == 0
    && (s.producer.Retrying? ==> |s.queue| < s.capacity)
    // every written sample is queued, was played, evicted or cleared
    && |s.written| == Popped(s) + |s.queue|
    // the queue is the end of what was written
    && s.queue == s.written[Popped(s)..]
    && InWrittenOrder(s, Popped(s))
  }

  lemma NextIsSafe(s: State, step: Step)
    requires Safe(s)
    ensures Safe(Next(s, step))
  {
  }

  /** Over every interleaving the retry of a push finds room, the queue stays within its
      capacity and ends at the newest sample pushed, and playback hears written order. */
  lemma {:induction false} RunIsSafe(s: State, steps: seq<Step>)
    requires Safe(s)
    ensures Safe(Run(s, steps)) && Run(s, steps).capacity == s.capacity
    decreases |steps|
  {
    if steps != [] {
      NextIsSafe(s, steps[0]);
      RunIsSafe(Next(s, steps[0]), steps[1..]);
    }
  }

  lemma EveryInterleavingIsSafe(capacity: nat, steps: seq<Step>)
    requires capacity > 0
    ensures Safe(Run(Start(capacity), steps))
  {
    RunIsSafe(Start(capacity), steps);
  }

  /** Left alone, the steps of a push have the effect of the single step that the other
      models take it for: the queue keeps the newest samples. */
  lemma PushAlone(s: State, sample: i16)
    requires Safe(s) && s.producer.Ready?
    ensures var after := Run(s, [Push(sample), Evict, Retry]);
            && after.queue == RingModel.Newest(s.queue + [sample], s.capacity)
            && after.written == s.written + [sample] && after.producer.Ready?
  {
    var s1 := Next(s, Push(sample));
    var s2 := Next(s1, Evict);
    var s3 := Next(s2, Retry);
    assert [Push(sample), Evict, Retry][1..] == [Evict, Retry];
    assert [Evict, Retry][1..] == [Retry];
    assert Run(s, [Push(sample), Evict, Retry]) == Run(s2, [Retry]) == Run(s3, []);
  }

  /** A sample is evicted only once the producer found the queue full, and at most one
      for each such push. */
  lemma {:induction false} EvictionsAreCounted(s: State, steps: seq<Step>)
    requires Safe(s)
    ensures Run(s, steps).evicted + (if Run(s, steps).producer.Evicting? then 1 else 0)
            <= s.evicted + (if s.producer.Evicting? then 1 else 0) + Overflows(s, steps)
    decreases |steps|
  {
    if steps != [] {
      NextIsSafe(s, steps[0]);
      EvictionsAreCounted(Next(s, steps[0]), steps[1..]);
    }
  }

  /** The pushes in a run that met a full queue. */
  function Overflows(s: State, steps: seq<Step>): nat
    decreases |steps|
  {
    if steps == [] then 0 else
    (if steps[0].Push? && s.producer.Ready? && |s.queue| >= s.capacity then 1 else 0)
    + Overflows(Next(s, steps[0]), steps[1..])
  }

  /** While nobody else takes samples, playback hears a contiguous run of the written
      stream that starts with the oldest sample queued. */
  lemma {:induction false} UndisturbedPlayIsContiguous(s: State, steps: seq<Step>)
    requires Run(s, steps).evicted == s.evicted && Run(s, steps).cleared == s.cleared
    requires |s.heard| == |s.played|
    ensures s.heard <= Run(s, steps).heard
    ensures forall j | |s.heard| <= j < |Run(s, steps).heard| ::
              Run(s, steps).heard[j] == Popped(s) + (j - |s.heard|)
    decreases |steps|
  {
    if steps != [] {
      var next := Next(s, steps[0]);
      OthersTakeMore(next, steps[1..]);
      UndisturbedPlayIsContiguous(next, steps[1..]);
    }
  }

  lemma {:induction false} OthersTakeMore(s: State, steps: seq<Step>)
    ensures Run(s, steps).evicted >= s.evicted && Run(s, steps).cleared >= s.cleared
    decreases |steps|
  {
    if steps != [] {
      OthersTakeMore(Next(s, steps[0]), steps[1..]);
    }
  }
}
