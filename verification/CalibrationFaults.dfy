/** What spoils a calibration: a run returns a profile exactly if every answer was good
    (windows-server/src/application/calibration.rs:106-479). */
module CalibrationFaults {
  import opened Numbers
  import opened ControlMessages
  import opened VolumeProfiles
  import opened CalibrationLog
  import opened CalibrationCurves
  import opened CalibrationCourse

  // ----- single answers -----

  /** The phone answered in time and did not fail. */
  predicate Answers(a: Answer) {
    a.queued && a.status.Some? && !a.status.value.failed
  }

  /** It plays on its speaker and its volume can be changed. */
  predicate IsAdjustable(d: DeviceStatus) {
    d.speaker && !d.fixed
  }

  predicate IsSameDevice(a: DeviceStatus, b: DeviceStatus) {
    a.deviceId == b.deviceId && a.minimum == b.minimum && a.maximum == b.maximum
  }

  /** The phone with the id is at `volume` and otherwise as it was found. */
  predicate StandsAt(originals: seq<Original>, id: nat, d: DeviceStatus, volume: int) {
    IsAdjustable(d) && d.volume == volume && exists o <- originals :: o.id == id && IsSameDevice(d, o.status)
  }

  /** The phone is at the volume it was found at. */
  predicate IsBack(originals: seq<Original>, id: nat, d: DeviceStatus) {
    IsAdjustable(d) && exists o <- originals :: o.id == id && IsSameDevice(d, o.status) && d.volume == o.status.volume
  }

  /** The tone was switched as asked. */
  predicate IsSwitched(a: Answer, enabled: bool) {
    a.queued && a.tone.Some? && !a.tone.value.failed && a.tone.value.playing == enabled
  }

  /** Nothing disturbed the measurement whose first request is `k`: the phone kept its volume, its
      tone was not interrupted, and afterwards the room was steady, without a tone and within 3 dB
      of what it was at first. */
  predicate IsCalm(t: Trial, k: nat) {
    var a, quiet := t.answers, t.answers(k + 5).heard;
    && a(k).status.Some? && a(k + 4).status.Some? && a(k).status.value.volume == a(k + 4).status.value.volume
    && (a(k + 2).news.Some? ==> a(k + 2).news.value.playing && !a(k + 2).news.value.failed)
    && quiet.Some? && quiet.value.spread <= 3.0 && !quiet.value.tone
    && -3.0 <= quiet.value.level - t.ambient <= 3.0
  }

  /** Its tone was heard clearly and steadily, at a level that could be told from the room's. */
  predicate IsLoud(t: Trial, k: nat) {
    var signal, quiet := t.answers(k + 2).heard, t.answers(k + 5).heard;
    signal.Some? && quiet.Some? && signal.value.tone && signal.value.spread <= 3.0
    && t.level(signal.value.level, quiet.value.level).Some?
  }

  /** That level is within 2 dB of `level`. */
  predicate IsNear(t: Trial, k: nat, level: real) {
    IsLoud(t, k)
    && -2.0 <= t.level(t.answers(k + 2).heard.value.level, t.answers(k + 5).heard.value.level).value - level <= 2.0
  }

  /** What a request is made for. */
  datatype Phase = Preparing | Sampling | Comparing(master: nat, targets: seq<Point>)

  /** The answer to request `k` is good. While a curve is sampled the volume asked for must have
      been reached; while phones are compared each tone must be heard, the master's as loud as in
      its curve. */
  predicate IsGood(originals: seq<Original>, r: Request, t: Trial, k: nat, phase: Phase) {
    var a := t.answers(k);
    match r
    case AskStatus(_) =>
      Answers(a) && IsAdjustable(a.status.value) && a.status.value.deviceId != ""
      && a.status.value.minimum < a.status.value.maximum
    case AskBegin(id) => Answers(a) && IsBack(originals, id, a.status.value)
    case AskCancel(id) => Answers(a) && IsBack(originals, id, a.status.value)
    case AskVolume(id, index) =>
      Answers(a) && (phase.Sampling? ==> StandsAt(originals, id, a.status.value, index))
      && (phase.Comparing? && id == phase.master ==>
            forall target <- phase.targets | target.index == index :: IsNear(t, k + 1, target.level))
    case AskTone(_, enabled) =>
      IsSwitched(a, enabled)
      && (enabled ==> k > 0 && IsCalm(t, k - 1) && (phase.Comparing? ==> IsLoud(t, k - 1)))
    case QuietAll => true
    case Listen => a.heard.Some?
  }

  predicate AllGood(originals: seq<Original>, requests: seq<Request>, t: Trial, k: nat, phase: Phase) {
    forall j | 0 <= j < |requests| :: IsGood(originals, requests[j], t, k + j, phase)
  }

  predicate AreDistinct(originals: seq<Original>) {
    forall i, j | 0 <= i < j < |originals| :: originals[i].id != originals[j].id
  }

  lemma GoodInParts(originals: seq<Original>, a: seq<Request>, b: seq<Request>, t: Trial, k: nat, phase: Phase)
    ensures AllGood(originals, a + b, t, k, phase) <==>
            AllGood(originals, a, t, k, phase) && AllGood(originals, b, t, k + |a|, phase)
  {
    hide IsGood;
    if AllGood(originals, a + b, t, k, phase) {
      forall j | 0 <= j < |a|
        ensures IsGood(originals, a[j], t, k + j, phase)
      {
        assert (a + b)[j] == a[j];
      }
      forall j | 0 <= j < |b|
        ensures IsGood(originals, b[j], t, k + |a| + j, phase)
      {
        assert (a + b)[|a| + j] == b[j] && k + (|a| + j) == k + |a| + j;
      }
    }
    if AllGood(originals, a, t, k, phase) && AllGood(originals, b, t, k + |a|, phase) {
      forall j | 0 <= j < |a + b|
        ensures IsGood(originals, (a + b)[j], t, k + j, phase)
      {
        if j >= |a| {
          assert (a + b)[j] == b[j - |a|] && k + |a| + (j - |a|) == k + j;
        }
      }
    }
  }

  lemma OneIsGood(originals: seq<Original>, r: Request, t: Trial, k: nat, phase: Phase)
    ensures AllGood(originals, [r], t, k, phase) <==> IsGood(originals, r, t, k, phase)
  {
    hide IsGood;
    assert AllGood(originals, [r], t, k, phase) ==> IsGood(originals, [r][0], t, k + 0, phase);
  }

  lemma NothingIsGood(originals: seq<Original>, t: Trial, k: nat, phase: Phase)
    ensures AllGood(originals, [], t, k, phase)
  {
  }

  lemma StandsExactly(originals: seq<Original>, o: Original, d: DeviceStatus, volume: u16)
    requires AreDistinct(originals) && o in originals
    ensures CommitConfirmed(d, o.status, volume) <==> !d.failed && StandsAt(originals, o.id, d, volume)
    ensures CommitConfirmed(d, o.status, o.status.volume) <==> !d.failed && IsBack(originals, o.id, d)
  {
  }

  // ----- measurements -----

  /** A measurement is undisturbed exactly if its six answers are good. */
  lemma UndisturbedExactly(originals: seq<Original>, id: nat, t: Trial, k: nat, phase: Phase)
    ensures AllGood(originals, Block(id), t, k, phase) <==>
            Undisturbed(t.answers, k, t.ambient) && (phase.Comparing? ==> IsLoud(t, k))
  {
    var b := Block(id);
    assert AllGood(originals, b, t, k, phase) <==>
      && IsGood(originals, b[0], t, k, phase) && IsGood(originals, b[1], t, k + 1, phase)
      && IsGood(originals, b[2], t, k + 2, phase) && IsGood(originals, b[3], t, k + 3, phase)
      && IsGood(originals, b[4], t, k + 4, phase) && IsGood(originals, b[5], t, k + 5, phase) by {
      hide IsGood, Block;
      assert |b| == 6;
    }
  }

  /** And it gives a level exactly if the tone was loud besides. */
  lemma MeasuredExactly(t: Trial, k: nat, v: real)
    ensures Measured(t, k, v) <==>
      && Undisturbed(t.answers, k, t.ambient) && IsLoud(t, k)
      && t.level(t.answers(k + 2).heard.value.level, t.answers(k + 5).heard.value.level) == Some(v)
  {
  }

  lemma StepExactly(originals: seq<Original>, id: nat, index: u16, t: Trial, k: nat, phase: Phase)
    ensures AllGood(originals, StepRequests(id, index), t, k, phase) <==>
            && IsGood(originals, AskVolume(id, index), t, k, phase)
            && Undisturbed(t.answers, k + 1, t.ambient) && (phase.Comparing? ==> IsLoud(t, k + 1))
  {
    UndisturbedExactly(originals, id, t, k + 1, phase);
    OneIsGood(originals, AskVolume(id, index), t, k, phase);
    hide Undisturbed, IsGood, IsLoud, AllGood, Block;
    GoodInParts(originals, [AskVolume(id, index)], Block(id), t, k, phase);
  }

  // ----- curves -----

  lemma StepTakenExactly(originals: seq<Original>, t: Trial, o: Original, lo: nat, index: u16, k: nat)
    requires AreDistinct(originals) && o in originals && lo <= index
    ensures AllGood(originals, StepRequests(o.id, index), t, k + CurveLength(lo, index), Sampling)
       <==> StepTaken(t, o, lo, index, k)
  {
    var at := k + CurveLength(lo, index);
    StepExactly(originals, o.id, index, t, at, Sampling);
    if Answers(t.answers(at)) {
      StandsExactly(originals, o, t.answers(at).status.value, index);
    }
    hide AllGood, AreDistinct, Undisturbed, StandsAt, CommitConfirmed;
  }

  lemma OneStepFurther(originals: seq<Original>, t: Trial, o: Original, lo: nat, index: u16, k: nat)
    requires AreDistinct(originals) && o in originals && lo <= index
    ensures AllGood(originals, CurveRequests(o, lo, index + 1), t, k, Sampling) <==>
            AllGood(originals, CurveRequests(o, lo, index), t, k, Sampling) && StepTaken(t, o, lo, index, k)
  {
    hide AllGood, StepRequests, StepTaken, AreDistinct;
    StepTakenExactly(originals, t, o, lo, index, k);
    GoodInParts(originals, CurveRequests(o, lo, index), StepRequests(o.id, index), t, k, Sampling);
  }

  lemma {:induction false} CurveExactly(originals: seq<Original>, t: Trial, o: Original, lo: nat, hi: nat, k: nat)
    requires AreDistinct(originals) && o in originals && lo <= hi <= 0x1_0000
    ensures AllGood(originals, CurveRequests(o, lo, hi), t, k, Sampling) <==> StepsTaken(t, o, lo, hi, k)
    decreases hi
  {
    hide AllGood, StepTaken, AreDistinct;
    if lo == hi {
      NothingIsGood(originals, t, k, Sampling);
    } else {
      CurveExactly(originals, t, o, lo, hi - 1, k);
      OneStepFurther(originals, t, o, lo, hi - 1, k);
    }
  }

  lemma {:induction false} CurvesExactly(t: Trial, originals: seq<Original>, n: nat, k: nat)
    requires AreDistinct(originals) && n <= |originals|
    ensures AllGood(originals, CurvesRequests(originals, n), t, k, Sampling) <==> CurvesTaken(t, originals, n, k)
  {
    hide AllGood, StepsTaken, CurveRequests;
    if n == 0 {
      NothingIsGood(originals, t, k, Sampling);
    } else {
      var o := originals[n - 1];
      CurvesExactly(t, originals, n - 1, k);
      CurveExactly(originals, t, o, CurveStart(o), CurveEnd(o), k + CurvesLength(originals, n - 1));
      GoodInParts(originals, CurvesRequests(originals, n - 1), CurveRequests(o, CurveStart(o), CurveEnd(o)),
                  t, k, Sampling);
    }
  }

  lemma {:induction false} CurveAscends(t: Trial, lo: nat, hi: nat, k: nat)
    requires lo <= hi <= 0x1_0000
    ensures Ascends(CurveOf(t, lo, hi, k)) && forall q <- CurveOf(t, lo, hi, k) :: q.index < hi
    decreases hi
  {
    if lo < hi {
      CurveAscends(t, lo, hi - 1, k);
      var points, p := CurveOf(t, lo, hi - 1, k), match LevelAt(t, k + CurveLength(lo, hi - 1) + 1)
                                                  case None => None
                                                  case Some(x) => Some(Point(hi - 1, x));
      AscendsFurther(points, p, hi - 1);
    }
  }

  // ----- comparisons -----

  /** Two phones can be compared exactly if both tones were heard, the master's within 2 dB of its
      curve. */
  lemma ReplayableExactly(t: Trial, target: Point, k: nat)
    ensures Replayable(t, target, k) <==>
      && Answers(t.answers(k)) && Undisturbed(t.answers, k + 1, t.ambient) && IsNear(t, k + 1, target.level)
      && Answers(t.answers(k + 7)) && Undisturbed(t.answers, k + 8, t.ambient) && IsLoud(t, k + 8)
  {
    if IsLoud(t, k + 1) && IsLoud(t, k + 8) {
      var repeated := t.level(t.answers(k + 3).heard.value.level, t.answers(k + 6).heard.value.level).value;
      var verified := t.level(t.answers(k + 10).heard.value.level, t.answers(k + 13).heard.value.level).value;
      MeasuredExactly(t, k + 1, repeated);
      MeasuredExactly(t, k + 8, verified);
      assert Replays(t, target, k, repeated, verified) || !Replays(t, target, k, repeated, verified);
    }
  }

  /** They agree exactly if both were then measured within 2 dB of each other. */
  lemma AgreedExactly(t: Trial, k: nat, repeated: real, verified: real)
    requires Measured(t, k + 1, repeated) && Measured(t, k + 8, verified)
    ensures PairAgrees(t, k) <==> -2.0 <= verified - repeated <= 2.0
  {
    LevelIsMeasured(t, k + 1);
    LevelIsMeasured(t, k + 8);
  }

  lemma MasterExactly(originals: seq<Original>, t: Trial, master: Original, target: Point, targets: seq<Point>, k: nat)
    requires target in targets && Ascends(targets)
    ensures IsGood(originals, AskVolume(master.id, target.index), t, k, Comparing(master.id, targets))
       <==> Answers(t.answers(k)) && IsNear(t, k + 1, target.level)
  {
    hide IsNear;
    forall other <- targets | other.index == target.index
      ensures other == target
    {
      var i, j :| 0 <= i < |targets| && 0 <= j < |targets| && targets[i] == target && targets[j] == other;
    }
  }

  lemma PairExactly(originals: seq<Original>, t: Trial, master: Original, follower: Original, target: Point,
                    targets: seq<Point>, points: seq<Point>, k: nat)
    requires target in targets && Ascends(targets) && follower.id != master.id
    ensures AllGood(originals, PairRequests(master, follower, target, points), t, k, Comparing(master.id, targets))
       <==> (NearBest(points, target).Some? ==> Replayable(t, target, k))
  {
    var phase := Comparing(master.id, targets);
    match NearBest(points, target)
    case None =>
      NothingIsGood(originals, t, k, phase);
    case Some(best) =>
      MasterExactly(originals, t, master, target, targets, k);
      ReplayableExactly(t, target, k);
      StepExactly(originals, master.id, target.index, t, k, phase);
      StepExactly(originals, follower.id, best.index, t, k + 7, phase);
      hide AllGood, StepRequests, Undisturbed, Replayable, IsNear, IsLoud, Ascends;
      GoodInParts(originals, StepRequests(master.id, target.index), StepRequests(follower.id, best.index), t, k, phase);
  }

  lemma {:induction false} PairsExactly(originals: seq<Original>, t: Trial, master: Original, follower: Original,
                                        targets: seq<Point>, points: seq<Point>, n: nat, k: nat)
    requires Ascends(targets) && follower.id != master.id && n <= |targets|
    ensures AllGood(originals, PairsRequests(master, follower, targets, points, n), t, k, Comparing(master.id, targets))
       <==> PairsReplayed(t, targets, points, n, k)
  {
    hide AllGood, PairRequests, Replayable, Ascends;
    var phase := Comparing(master.id, targets);
    if n == 0 {
      NothingIsGood(originals, t, k, phase);
    } else {
      PairsExactly(originals, t, master, follower, targets, points, n - 1, k);
      PairExactly(originals, t, master, follower, targets[n - 1], targets, points,
                  k + PairsLength(targets, points, n - 1));
      GoodInParts(originals, PairsRequests(master, follower, targets, points, n - 1),
                  PairRequests(master, follower, targets[n - 1], points), t, k, phase);
    }
  }

  lemma {:induction false} FollowersExactly(t: Trial, originals: seq<Original>, curves: seq<seq<Point>>, n: nat, k: nat)
    requires AreDistinct(originals) && n < |curves| == |originals| && Ascends(curves[0])
    ensures AllGood(originals, FollowersRequests(originals, curves, n), t, k, Comparing(originals[0].id, curves[0]))
       <==> FollowersMapped(t, curves, n, k)
  {
    hide AllGood, PairsRequests, PairsReplayed, Ascends;
    var phase := Comparing(originals[0].id, curves[0]);
    if n == 0 {
      NothingIsGood(originals, t, k, phase);
    } else {
      FollowersExactly(t, originals, curves, n - 1, k);
      PairsExactly(originals, t, originals[0], originals[n], curves[0], curves[n], |curves[0]|,
                   k + FollowersLength(curves, n - 1));
      GoodInParts(originals, FollowersRequests(originals, curves, n - 1),
                  PairsRequests(originals[0], originals[n], curves[0], curves[n], |curves[0]|), t, k, phase);
    }
  }

  // ----- sessions -----

  /** The phone is the one that a single snapshot names, the one the profile means, and it is
      remembered with the status it answered. */
  ghost predicate IsExpected(snapshots: seq<Snapshot>, device: DeviceRange, a: Answer, o: Original) {
    && a.status == Some(o.status)
    && o.status.deviceId == device.id && o.status.minimum == device.minimum && o.status.maximum == device.maximum
    && exists j | 0 <= j < |snapshots| :: snapshots[j].id == o.id
         && forall l | 0 <= l < |snapshots| ::
              l == j <==> snapshots[l].device.Some? && snapshots[l].device.value.deviceId == device.id
  }

  ghost predicate AreExpected(snapshots: seq<Snapshot>, devices: seq<DeviceRange>, answers: Answers, k: nat,
                              originals: seq<Original>)
  {
    |originals| == |devices|
    && forall i | 0 <= i < |originals| :: IsExpected(snapshots, devices[i], answers(k + i), originals[i])
  }

  lemma FoundExactly(originals: seq<Original>, snapshots: seq<Snapshot>, device: DeviceRange, t: Trial, o: Original,
                     k: nat)
    ensures IsFound(snapshots, device, t.answers(k), o) <==>
            IsExpected(snapshots, device, t.answers(k), o) && IsGood(originals, AskStatus(o.id), t, k, Preparing)
  {
    if IsExpected(snapshots, device, t.answers(k), o) {
      var j :| 0 <= j < |snapshots| && snapshots[j].id == o.id
        && forall l | 0 <= l < |snapshots| ::
             l == j <==> snapshots[l].device.Some? && snapshots[l].device.value.deviceId == device.id;
      assert IsOnly(snapshots, device.id, j);
    }
  }

  lemma {:induction false} StatusesAt(originals: seq<Original>, n: nat, i: nat)
    requires i < n <= |originals|
    ensures Statuses(originals, n)[i] == AskStatus(originals[i].id)
  {
    if i < n - 1 {
      StatusesAt(originals, n - 1, i);
    }
  }

  lemma StatusesExactly(originals: seq<Original>, snapshots: seq<Snapshot>, devices: seq<DeviceRange>, t: Trial, k: nat)
    ensures AreFound(t.answers, snapshots, devices, k, originals) <==>
            && AreExpected(snapshots, devices, t.answers, k, originals)
            && AllGood(originals, Statuses(originals, |originals|), t, k, Preparing)
  {
    hide IsFound, IsExpected, IsGood, Statuses;
    var n := |originals|;
    if n == |devices| {
      forall i | 0 <= i < n
        ensures Statuses(originals, n)[i] == AskStatus(originals[i].id)
        ensures IsFound(snapshots, devices[i], t.answers(k + i), originals[i]) <==>
                && IsExpected(snapshots, devices[i], t.answers(k + i), originals[i])
                && IsGood(originals, AskStatus(originals[i].id), t, k + i, Preparing)
      {
        StatusesAt(originals, n, i);
        FoundExactly(originals, snapshots, devices[i], t, originals[i], k + i);
      }
    }
  }

  lemma {:induction false} BeginningExactly(originals: seq<Original>, t: Trial, n: nat, k: nat)
    requires AreDistinct(originals) && n <= |originals|
    ensures AllGood(originals, Beginning(originals, n), t, k, Preparing) <==> AllBegun(t.answers, originals, n, k)
  {
    if n == 0 {
      NothingIsGood(originals, t, k, Preparing);
    } else {
      var o, a := originals[n - 1], t.answers(k + n - 1);
      BeginningExactly(originals, t, n - 1, k);
      assert BeginConfirmed(a, o) <==> IsGood(originals, AskBegin(o.id), t, k + n - 1, Preparing) by {
        if Answers(a) {
          StandsExactly(originals, o, a.status.value, o.status.volume);
        }
      }
      hide AllGood, IsGood, BeginConfirmed;
      OneIsGood(originals, AskBegin(o.id), t, k + n - 1, Preparing);
      GoodInParts(originals, Beginning(originals, n - 1), [AskBegin(o.id)], t, k, Preparing);
    }
  }

  lemma RestoredExactly(originals: seq<Original>, t: Trial, o: Original, k: nat)
    requires AreDistinct(originals) && o in originals
    ensures AllGood(originals, [AskTone(o.id, false), AskCancel(o.id)], t, k, Preparing)
       <==> RestoredAt(t.answers, o, k)
  {
    var a := t.answers(k + 1);
    if Answers(a) {
      StandsExactly(originals, o, a.status.value, o.status.volume);
    }
    OneIsGood(originals, AskTone(o.id, false), t, k, Preparing);
    OneIsGood(originals, AskCancel(o.id), t, k + 1, Preparing);
    hide AllGood;
    GoodInParts(originals, [AskTone(o.id, false)], [AskCancel(o.id)], t, k, Preparing);
    assert [AskTone(o.id, false)] + [AskCancel(o.id)] == [AskTone(o.id, false), AskCancel(o.id)];
  }

  lemma {:induction false} RestoringExactly(originals: seq<Original>, begun: seq<Original>, t: Trial, k: nat)
    requires AreDistinct(originals) && forall o <- begun :: o in originals
    ensures AllGood(originals, Restoring(begun), t, k, Preparing) <==> AllRestored(t.answers, begun, k)
  {
    if begun == [] {
      NothingIsGood(originals, t, k, Preparing);
    } else {
      var n := |begun| - 1;
      var front, o := begun[..n], begun[n];
      RestoringExactly(originals, front, t, k);
      RestoringLength(front);
      RestoredExactly(originals, t, o, k + 2 * n);
      hide AllGood, RestoredAt;
      GoodInParts(originals, Restoring(front), [AskTone(o.id, false), AskCancel(o.id)], t, k, Preparing);
      assert AllRestored(t.answers, begun, k) <==>
             AllRestored(t.answers, front, k) && RestoredAt(t.answers, o, k + 2 * n) by {
        assert forall i | 0 <= i < n :: front[i] == begun[i];
        if AllRestored(t.answers, front, k) && RestoredAt(t.answers, o, k + 2 * n) {
          forall i | 0 <= i < |begun|
            ensures RestoredAt(t.answers, begun[i], k + 2 * i)
          {
            assert i < n ==> RestoredAt(t.answers, front[i], k + 2 * i);
          }
        }
        if AllRestored(t.answers, begun, k) {
          forall i | 0 <= i < n
            ensures RestoredAt(t.answers, front[i], k + 2 * i)
          {
            assert RestoredAt(t.answers, begun[i], k + 2 * i);
          }
        }
      }
    }
  }

  // ----- the run -----

  /** The room was heard, steadily and without a tone. */
  predicate IsSteady(a: Answer) {
    a.heard.Some? && a.heard.value.spread <= 3.0 && !a.heard.value.tone
  }

  /** Some follower can go along above the master's lowest volume. */
  predicate ReachesUp(p: Profile) {
    exists f <- p.followers :: exists m <- f.mapping :: p.master.minimum < m
  }

  lemma UsefulExactly(p: Profile)
    ensures Useful(p) <==> ReachesUp(p)
  {
    if f, m :| f in p.followers && m in f.mapping && p.master.minimum < m {
      var i :| 0 <= i < |p.followers| && p.followers[i] == f;
    }
  }

  // ----- the outcome -----

  lemma {:induction false} CurveIsInRange(t: Trial, lo: nat, hi: nat, k: nat)
    requires lo <= hi <= 0x1_0000
    ensures forall q <- CurveOf(t, lo, hi, k) :: lo <= q.index < hi
    decreases hi
  {
    hide LevelAt;
    if lo < hi {
      CurveIsInRange(t, lo, hi - 1, k);
    }
  }

  /** The points of each curve lie in the range of the phone. */
  predicate AreInRange(points: seq<Point>, d: DeviceRange) {
    forall q <- points :: d.minimum <= q.index <= d.maximum
  }

  lemma {:induction false} CurvesAreInRange(t: Trial, originals: seq<Original>, devices: seq<DeviceRange>, n: nat,
                                            k: nat, i: nat)
    requires i < n <= |originals| == |devices| && devices[i].minimum < devices[i].maximum
    requires originals[i].status.minimum == devices[i].minimum && originals[i].status.maximum == devices[i].maximum
    ensures AreInRange(CurvesOf(t, originals, n, k)[i], devices[i])
  {
    hide CurveOf;
    var o := originals[n - 1];
    if i < n - 1 {
      CurvesAreInRange(t, originals, devices, n - 1, k, i);
    } else {
      CurveIsInRange(t, CurveStart(o), CurveEnd(o), k + CurvesLength(originals, n - 1));
    }
  }

  lemma {:induction false} MappingIsInRange(t: Trial, p: Profile, f: Follower, targets: seq<Point>,
                                            points: seq<Point>, n: nat, k: nat)
    requires n <= |targets| && AreInRange(targets, p.master) && AreInRange(points, f.device)
    ensures ValidMapping(p, f.(mapping := MappingOf(t, BothZero(p, f), targets, points, n, k)))
  {
    if n > 0 {
      var target := targets[n - 1];
      MappingIsInRange(t, p, f, targets, points, n - 1, k);
      NearBestIsBest(points, target);
      assert target in targets;
    }
  }

  lemma {:induction false} FollowersAreInRange(t: Trial, p: Profile, curves: seq<seq<Point>>, n: nat, k: nat, i: nat)
    requires i < n <= |p.followers| < |curves| && AreInRange(curves[0], p.master)
    requires AreInRange(curves[i + 1], p.followers[i].device)
    ensures var f := FollowersOf(t, p, curves, n, k)[i];
            f.device == p.followers[i].device && ValidMapping(p, f)
  {
    if i < n - 1 {
      FollowersAreInRange(t, p, curves, n - 1, k, i);
    } else {
      MappingIsInRange(t, p, p.followers[i], curves[0], curves[n], |curves[0]|, k + FollowersLength(curves, n - 1));
    }
  }

  /** The profile that comes of calibrating a valid one is always valid. */
  lemma ChartIsValid(t: Trial, p: Profile, originals: seq<Original>)
    requires ValidProfile(p) && |originals| == |p.followers| + 1
    requires forall i | 0 <= i < |originals| ::
               && originals[i].status.minimum == Devices(p)[i].minimum
               && originals[i].status.maximum == Devices(p)[i].maximum
    ensures ValidProfile(ChartOf(t, p, originals))
  {
    var q, curves := ChartOf(t, p, originals), Curves(t, originals);
    forall i | 0 <= i < |originals|
      ensures AreInRange(curves[i], Devices(p)[i])
    {
      assert Devices(p)[i] in Devices(p);
      CurvesAreInRange(t, originals, Devices(p), |originals|, t.since, i);
    }
    forall i | 0 <= i < |p.followers|
      ensures q.followers[i].device == p.followers[i].device && ValidMapping(q, q.followers[i])
    {
      assert Devices(p)[i + 1] == p.followers[i].device;
      FollowersAreInRange(t, p, curves, |p.followers|, CurvesEnd(t, originals), i);
    }
    assert Devices(q) == Devices(p);
  }

  /** What request `k` of the run is made for. */
  ghost function PhaseAt(t: Trial, p: Profile, originals: seq<Original>, k: nat): Phase
    requires |originals| == |p.followers| + 1
  {
    if t.since <= k < CurvesEnd(t, originals) then Sampling else
    if CurvesEnd(t, originals) <= k < ChartEnd(t, p, originals)
    then Comparing(originals[0].id, Curves(t, originals)[0]) else Preparing
  }

  /** Every answer to `requests`, the first of which is request `k`, is good. */
  ghost predicate IsFaultless(t: Trial, p: Profile, originals: seq<Original>, requests: seq<Request>, k: nat)
    requires |originals| == |p.followers| + 1
  {
    forall j | 0 <= j < |requests| ::
      IsGood(originals, requests[j], t, k + j, PhaseAt(t, p, originals, k + j))
  }

  lemma FaultlessInParts(t: Trial, p: Profile, originals: seq<Original>, a: seq<Request>, b: seq<Request>, k: nat)
    requires |originals| == |p.followers| + 1
    ensures IsFaultless(t, p, originals, a + b, k) <==>
            IsFaultless(t, p, originals, a, k) && IsFaultless(t, p, originals, b, k + |a|)
  {
    hide IsGood, PhaseAt;
    if IsFaultless(t, p, originals, a + b, k) {
      forall j | 0 <= j < |a|
        ensures IsGood(originals, a[j], t, k + j, PhaseAt(t, p, originals, k + j))
      {
        assert (a + b)[j] == a[j];
      }
      forall j | 0 <= j < |b|
        ensures IsGood(originals, b[j], t, k + |a| + j, PhaseAt(t, p, originals, k + |a| + j))
      {
        assert (a + b)[|a| + j] == b[j] && k + (|a| + j) == k + |a| + j;
      }
    }
    if IsFaultless(t, p, originals, a, k) && IsFaultless(t, p, originals, b, k + |a|) {
      forall j | 0 <= j < |a + b|
        ensures IsGood(originals, (a + b)[j], t, k + j, PhaseAt(t, p, originals, k + j))
      {
        if j >= |a| {
          assert (a + b)[j] == b[j - |a|] && k + |a| + (j - |a|) == k + j;
        }
      }
    }
  }

  lemma FaultlessInPhase(t: Trial, p: Profile, originals: seq<Original>, requests: seq<Request>, k: nat, phase: Phase)
    requires |originals| == |p.followers| + 1
    requires forall i: nat | k <= i < k + |requests| :: PhaseAt(t, p, originals, i) == phase
    ensures IsFaultless(t, p, originals, requests, k) <==> AllGood(originals, requests, t, k, phase)
  {
    hide IsGood, PhaseAt;
    forall j | 0 <= j < |requests|
      ensures IsGood(originals, requests[j], t, k + j, PhaseAt(t, p, originals, k + j)) <==>
              IsGood(originals, requests[j], t, k + j, phase)
    {
    }
  }

  lemma CurvesFaultless(t: Trial, p: Profile, originals: seq<Original>)
    requires AreDistinct(originals) && |originals| == |p.followers| + 1
    ensures IsFaultless(t, p, originals, CurvesRequests(originals, |originals|), t.since) <==>
            CurvesTaken(t, originals, |originals|, t.since)
  {
    hide CurvesTaken, IsFaultless, AllGood, CurvesRequests, AreDistinct, CurvesLength, Curves;
    CurvesExactly(t, originals, |originals|, t.since);
    FaultlessInPhase(t, p, originals, CurvesRequests(originals, |originals|), t.since, Sampling);
  }

  lemma FollowersFaultless(t: Trial, p: Profile, originals: seq<Original>)
    requires AreDistinct(originals) && |originals| == |p.followers| + 1
    ensures IsFaultless(t, p, originals, FollowersRequests(originals, Curves(t, originals), |p.followers|),
                        CurvesEnd(t, originals)) <==>
            FollowersMapped(t, Curves(t, originals), |p.followers|, CurvesEnd(t, originals))
  {
    hide FollowersMapped, IsFaultless, AllGood, FollowersRequests, AreDistinct, FollowersLength, CurvesEnd, Ascends,
         Curves;
    var curves, k := Curves(t, originals), CurvesEnd(t, originals);
    MasterAscends(t, originals);
    FollowersExactly(t, originals, curves, |p.followers|, k);
    FaultlessInPhase(t, p, originals, FollowersRequests(originals, curves, |p.followers|), k,
                     Comparing(originals[0].id, curves[0]));
  }

  /** What charting asks is answered well exactly if the curves are taken and the comparisons
      replayed. */
  lemma ChartingExactly(t: Trial, p: Profile, originals: seq<Original>)
    requires AreDistinct(originals) && |originals| == |p.followers| + 1
    ensures IsFaultless(t, p, originals, ChartRequests(t, p, originals), t.since) <==>
            && CurvesTaken(t, originals, |originals|, t.since)
            && FollowersMapped(t, Curves(t, originals), |p.followers|, CurvesEnd(t, originals))
  {
    hide CurvesTaken, FollowersMapped, IsFaultless, CurvesRequests, FollowersRequests, Curves, AreDistinct,
         CurvesLength, FollowersLength;
    CurvesFaultless(t, p, originals);
    FollowersFaultless(t, p, originals);
    FaultlessInParts(t, p, originals, CurvesRequests(originals, |originals|),
                     FollowersRequests(originals, Curves(t, originals), |p.followers|), t.since);
  }

  lemma {:induction false} FirstCurve(t: Trial, originals: seq<Original>, n: nat, k: nat)
    requires 0 < n <= |originals|
    ensures CurvesOf(t, originals, n, k)[0] == CurveOf(t, CurveStart(originals[0]), CurveEnd(originals[0]), k)
  {
    if n > 1 {
      FirstCurve(t, originals, n - 1, k);
    }
  }

  lemma MasterAscends(t: Trial, originals: seq<Original>)
    requires originals != []
    ensures Ascends(Curves(t, originals)[0])
  {
    FirstCurve(t, originals, |originals|, t.since);
    CurveAscends(t, CurveStart(originals[0]), CurveEnd(originals[0]), t.since);
  }

  lemma FaultlessOutside(t: Trial, p: Profile, originals: seq<Original>, requests: seq<Request>, k: nat)
    requires |originals| == |p.followers| + 1 && (k + |requests| <= t.since || ChartEnd(t, p, originals) <= k)
    ensures IsFaultless(t, p, originals, requests, k) <==> AllGood(originals, requests, t, k, Preparing)
  {
    hide AllGood, IsFaultless;
    FaultlessInPhase(t, p, originals, requests, k, Preparing);
  }

  /** Opening the sessions and listening to the room. */
  lemma OpeningExactly(t: Trial, p: Profile, originals: seq<Original>, k: nat)
    requires AreDistinct(originals) && |originals| == |p.followers| + 1 && t.since == k + |originals| + 1
    ensures IsFaultless(t, p, originals, Beginning(originals, |originals|) + [Listen], k) <==>
            AllBegun(t.answers, originals, |originals|, k) && t.answers(k + |originals|).heard.Some?
  {
    var n := |originals|;
    BeginningExactly(originals, t, n, k);
    OneIsGood(originals, Listen, t, k + n, Preparing);
    hide AllGood, IsFaultless, AllBegun, Beginning, AreDistinct;
    FaultlessOutside(t, p, originals, Beginning(originals, n), k);
    FaultlessOutside(t, p, originals, [Listen], k + n);
    FaultlessInParts(t, p, originals, Beginning(originals, n), [Listen], k);
  }

  lemma RestoringFaultless(t: Trial, p: Profile, originals: seq<Original>)
    requires AreDistinct(originals) && |originals| == |p.followers| + 1
    ensures IsFaultless(t, p, originals, Restoring(originals), ChartEnd(t, p, originals) + 1) <==>
            AllRestored(t.answers, originals, ChartEnd(t, p, originals) + 1)
  {
    hide AllGood, IsFaultless, AllRestored, Restoring, AreDistinct, ChartEnd;
    RestoringExactly(originals, originals, t, ChartEnd(t, p, originals) + 1);
    FaultlessOutside(t, p, originals, Restoring(originals), ChartEnd(t, p, originals) + 1);
  }

  lemma QuietIsFaultless(t: Trial, p: Profile, originals: seq<Original>, k: nat)
    requires |originals| == |p.followers| + 1
    ensures IsFaultless(t, p, originals, [QuietAll], k)
  {
    hide PhaseAt;
  }

  /** Stopping all tones and restoring the phones. */
  lemma ClosingExactly(t: Trial, p: Profile, originals: seq<Original>)
    requires AreDistinct(originals) && |originals| == |p.followers| + 1
    ensures IsFaultless(t, p, originals, [QuietAll] + Restoring(originals), ChartEnd(t, p, originals)) <==>
            AllRestored(t.answers, originals, ChartEnd(t, p, originals) + 1)
  {
    hide IsFaultless, AllRestored, Restoring, AreDistinct, ChartEnd;
    RestoringFaultless(t, p, originals);
    QuietIsFaultless(t, p, originals, ChartEnd(t, p, originals));
    FaultlessInParts(t, p, originals, [QuietAll], Restoring(originals), ChartEnd(t, p, originals));
  }

  /** The run's answers are good exactly if they are in its four parts. */
  lemma RunInParts(t: Trial, p: Profile, originals: seq<Original>, k: nat)
    requires |originals| == |p.followers| + 1 && t.since == k + 2 * |originals| + 1
    ensures IsFaultless(t, p, originals, RunRequests(t, p, originals), k) <==>
            && IsFaultless(t, p, originals, Statuses(originals, |originals|), k)
            && IsFaultless(t, p, originals, Beginning(originals, |originals|) + [Listen], k + |originals|)
            && IsFaultless(t, p, originals, ChartRequests(t, p, originals), t.since)
            && IsFaultless(t, p, originals, [QuietAll] + Restoring(originals), ChartEnd(t, p, originals))
  {
    hide IsFaultless, ChartRequests, ChartEnd, Statuses, Beginning, Restoring;
    var a, b := Statuses(originals, |originals|), Beginning(originals, |originals|);
    var chart := ChartRequests(t, p, originals);
    Regroup(a + (b + [Listen] + chart), [QuietAll], Restoring(originals));
    FaultlessInParts(t, p, originals, b + [Listen], chart, k + |originals|);
    FaultlessInParts(t, p, originals, a, b + [Listen] + chart, k);
    FaultlessInParts(t, p, originals, a + (b + [Listen] + chart), [QuietAll] + Restoring(originals), k);
  }

  /** A run returns a profile exactly if every single request was answered well, from the first
      status to the last Cancel, and the phones were the profile's, the room steady, the master
      audible and the outcome of use. One bad answer fails it; and nothing else does. */
  lemma SuccessExactly(answers: Answers, level: Level, p: Profile, snapshots: seq<Snapshot>, reference: nat,
                       k: nat, originals: seq<Original>, t: Trial)
    requires AreDistinct(originals) && |originals| == |p.followers| + 1
    requires t == TrialAfter(answers, level, k + 2 * |originals|)
    ensures RunSucceeds(answers, level, p, snapshots, reference, k, originals) <==>
      && ValidProfile(p) && p.followers != [] && originals[0].id == reference
      && AreExpected(snapshots, Devices(p), answers, k, originals)
      && IsFaultless(t, p, originals, RunRequests(t, p, originals), k)
      && IsSteady(answers(k + 2 * |originals|)) && Curves(t, originals)[0] != []
      && ReachesUp(ChartOf(t, p, originals))
  {
    hide AllGood, AllBegun, AllRestored, CurvesTaken, FollowersMapped, Curves, ChartOf, ChartRequests, ChartEnd,
         ValidProfile, IsFaultless, RunRequests, AreDistinct, Restoring, Beginning, Statuses;
    RunInParts(t, p, originals, k);
    FaultlessOutside(t, p, originals, Statuses(originals, |originals|), k);
    OpeningExactly(t, p, originals, k + |originals|);
    ChartingExactly(t, p, originals);
    ClosingExactly(t, p, originals);
    StatusesExactly(originals, snapshots, Devices(p), t, k);
    if ValidProfile(p) && AreExpected(snapshots, Devices(p), answers, k, originals) {
      ChartIsValid(t, p, originals);
    }
    hide AreExpected, AreFound;
    UsefulExactly(ChartOf(t, p, originals));
    hide Useful;
  }
}
