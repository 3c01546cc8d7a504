/** When the server lets a stream fall silent (windows-server/src/network/silence.rs). */
module Silence {
  import opened Numbers

  /** 300 ms at 48 kHz. */
  const GRACE_SAMPLES := 14400

  datatype Detector = Detector(silentSince: Option<u64>, idle: bool)

  /** One block, or the news that sending is switched off. */
  datatype Heard = Heard(timestamp: u64, silent: bool, enabled: bool)

  function Hear(d: Detector, h: Heard): Detector {
    if !h.enabled then Detector(None, true)
    else if h.silent then
      var since := match d.silentSince case Some(since) => since case None => h.timestamp;
      Detector(Some(since), d.idle || WrappingSub64(h.timestamp, since) >= GRACE_SAMPLES)
    else Detector(None, false)
  }

  class SilenceDetector {
    var silentSince: Option<u64>
    var idle: bool

    ghost function View(): Detector
      reads this
    {
      Detector(silentSince, idle)
    }

    constructor ()
      ensures View() == Detector(None, false)
    {
      silentSince, idle := None, false;
    }

    method Update(timestamp: u64, silent: bool, enabled: bool) returns (send: bool, becameIdle: bool)
      modifies this
      ensures View() == Hear(old(View()), Heard(timestamp, silent, enabled))
      ensures send == !idle && becameIdle == (idle && !old(idle))
    {
      var wasIdle := idle;
      if !enabled {
        silentSince := None;
        idle := true;
      } else if silent {
        if silentSince.None? {
          silentSince := Some(timestamp);
        }
        var since := silentSince.value;
        idle := idle || WrappingSub64(timestamp, since) >= GRACE_SAMPLES;
      } else {
        silentSince := None;
        idle := false;
      }
      return !idle, idle && !wasIdle;
    }
  }

  function Run(history: seq<Heard>): Detector {
    if history == [] then Detector(None, false)
    else Hear(Run(history[..|history| - 1]), history[|history| - 1])
  }

  predicate Audible(h: Heard) {
    h.enabled && !h.silent
  }

  /** Where the quiet that `history` ends with begins: after its last audible block. */
  function QuietFrom(history: seq<Heard>): (start: nat)
    ensures start <= |history|
    ensures start > 0 ==> Audible(history[start - 1])
    ensures forall j | start <= j < |history| :: !Audible(history[j])
  {
    if history == [] || Audible(history[|history| - 1]) then |history|
    else QuietFrom(history[..|history| - 1])
  }

  /** Block `j` puts the stream to sleep: sending is off, or 300 ms have passed since the
      quiet began. */
  predicate Sleeps(history: seq<Heard>, j: nat)
    requires QuietFrom(history) <= j < |history|
  {
    !history[j].enabled || WrappingSub64(history[j].timestamp, history[QuietFrom(history)].timestamp) >= GRACE_SAMPLES
  }

  /** The detector sleeps exactly if since the last audible block it was switched off or
      has heard 300 ms of silence; one audible block wakes it. */
  lemma {:induction false} IdleExactly(history: seq<Heard>)
    ensures Run(history).idle <==>
      exists j | QuietFrom(history) <= j < |history| :: Sleeps(history, j)
    ensures !Run(history).idle ==>
      Run(history).silentSince ==
        if QuietFrom(history) < |history| then Some(history[QuietFrom(history)].timestamp) else None
  {
    if history != [] && !Audible(history[|history| - 1]) {
      var n := |history| - 1;
      var front := history[..n];
      IdleExactly(front);
      assert QuietFrom(history) == QuietFrom(front);
      if j :| QuietFrom(front) <= j < n && Sleeps(front, j) {
        assert Sleeps(history, j);
      }
      if Run(history).idle && !Run(front).idle {
        assert Sleeps(history, n);
      }
      if j :| QuietFrom(history) <= j < n && Sleeps(history, j) {
        assert Sleeps(front, j);
      }
    }
  }
}
