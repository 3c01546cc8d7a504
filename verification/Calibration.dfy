/** The server's acoustic calibration of a group
    (windows-server/src/application/calibration.rs). */
module Calibration {
  import opened Numbers
  import opened ControlMessages
  import opened VolumeProfiles
  import opened CalibrationLog
  import opened CalibrationCurves
  import opened CalibrationCourse
  import opened CalibrationEvidence

  datatype Raw = Raw(signal: Measurement, background: real)

  /** `reduce` with `closest_step`: the first of the points closest to the target. */
  method FindBest(points: seq<Point>, target: real) returns (best: Option<Point>)
    ensures best.None? <==> points == []
    ensures best.Some? ==> IsBest(points, target, best.value)
  {
    if points == [] {
      return None;
    }
    var k := 0;
    for j := 1 to |points|
      invariant 0 <= k < j
      invariant forall l | 0 <= l < k :: Distance(points[l].level, target) > Distance(points[k].level, target)
      invariant forall l | k <= l < j :: Distance(points[l].level, target) >= Distance(points[k].level, target)
    {
      if Distance(points[k].level, target) > Distance(points[j].level, target) {
        k := j;
      }
    }
    assert IsBestAt(points, target, points[k], k);
    return Some(points[k]);
  }

  /** The calibration's dealings with phones and microphone. */
  class Calibrator {
    var log: seq<Request>
    const answers: Answers
    const level: (real, real) -> Option<real>

    /** The trial of this calibration against the background `ambient`. */
    ghost predicate IsTrial(t: Trial, ambient: real) {
      t.answers == answers && t.level == level && t.ambient == ambient
    }

    constructor (answers: Answers, level: (real, real) -> Option<real>)
      ensures log == [] && this.answers == answers && this.level == level
    {
      log := [];
      this.answers := answers;
      this.level := level;
    }

    method Ask(request: Request) returns (answer: Answer)
      modifies this
      ensures log == old(log) + [request] && answer == answers(|old(log)|)
    {
      answer := answers(|log|);
      log := log + [request];
    }

    method Exchange(request: Request) returns (status: Result<DeviceStatus>)
      modifies this
      ensures log == old(log) + [request]
      ensures status.Success? <==> Replied(answers(|old(log)|))
      ensures status.Success? ==> answers(|old(log)|).status == Some(status.value)
    {
      var answer := Ask(request);
      if !answer.queued || answer.status.None? || answer.status.value.failed {
        return Failure;
      }
      return Success(answer.status.value);
    }

    method SwitchTone(id: nat, enabled: bool) returns (ok: bool)
      modifies this
      ensures log == old(log) + [AskTone(id, enabled)] && (ok <==> Switched(answers(|old(log)|), enabled))
    {
      var answer := Ask(AskTone(id, enabled));
      ok := answer.queued && answer.tone.Some? && !answer.tone.value.failed && answer.tone.value.playing == enabled;
    }

    /** Plays the tone while the microphone listens; the tone is stopped even when the
        microphone failed. */
    method Play(id: nat) returns (played: Result<(u16, Measurement)>)
      modifies this
      ensures old(log) <= log && Harmless(log[|old(log)|..])
      ensures played.Success? <==> PlayedThrough(answers, |old(log)|)
      ensures played.Success? ==>
        && log == old(log) + Block(id)[..4]
        && answers(|old(log)|).status.value.volume == played.value.0
        && answers(|old(log)| + 2).heard == Some(played.value.1)
    {
      var status := Exchange(AskStatus(id));
      if status.Failure? || !Usable(status.value) {
        return Failure;
      }
      var started := SwitchTone(id, true);
      if !started {
        return Failure;
      }
      var answer := Ask(Listen);
      var interrupted := answer.news.Some? && (!answer.news.value.playing || answer.news.value.failed);
      var stopped := SwitchTone(id, false);
      if answer.heard.None? || !stopped || interrupted {
        return Failure;
      }
      return Success((status.value.volume, answer.heard.value));
    }

    /** The phone is unchanged and the room as quiet as before. */
    method CheckQuiet(id: nat, volume: u16, ambient: real) returns (background: Result<real>)
      modifies this
      ensures old(log) <= log && Harmless(log[|old(log)|..])
      ensures background.Success? <==> FellQuiet(answers, |old(log)|, volume, ambient)
      ensures background.Success? ==>
        && log == old(log) + Block(id)[4..]
        && answers(|old(log)| + 1).heard.value.level == background.value
    {
      var after := Exchange(AskStatus(id));
      if after.Failure? || !Usable(after.value) || after.value.volume != volume {
        return Failure;
      }
      var quiet := Ask(Listen);
      if quiet.heard.None? || quiet.heard.value.tone || quiet.heard.value.spread > 3.0
        || Distance(quiet.heard.value.level, ambient) > 3.0
      {
        return Failure;
      }
      return Success(quiet.heard.value.level);
    }

    method MeasureRaw(id: nat, ambient: real) returns (raw: Result<Raw>)
      modifies this
      ensures old(log) <= log && Harmless(log[|old(log)|..])
      ensures raw.Success? <==> Undisturbed(answers, |old(log)|, ambient)
      ensures raw.Success? ==>
        && log == old(log) + Block(id)
        && answers(|old(log)| + 2).heard == Some(raw.value.signal)
        && answers(|old(log)| + 5).heard.value.level == raw.value.background
    {
      var played := Play(id);
      if played.Failure? {
        return Failure;
      }
      assert Block(id)[..4] + Block(id)[4..] == Block(id);
      var background := CheckQuiet(id, played.value.0, ambient);
      if background.Failure? {
        return Failure;
      }
      return Success(Raw(played.value.1, background.value));
    }

    method Measure(id: nat, ambient: real, ghost t: Trial) returns (v: Result<real>)
      requires IsTrial(t, ambient)
      modifies this
      ensures old(log) <= log && Harmless(log[|old(log)|..])
      ensures v.Success? ==> log == old(log) + Block(id)
      ensures IsMeasurement(t, |old(log)|, v)
    {
      var raw := MeasureRaw(id, ambient);
      if raw.Failure? || !raw.value.signal.tone || raw.value.signal.spread > 3.0 {
        return Failure;
      }
      var found := level(raw.value.signal.level, raw.value.background);
      return if found.Some? then Success(found.value) else Failure;
    }

    /** One step of the range: a phone that does not confirm it ends the calibration, a level
        that cannot be told is left out. */
    method SampleStep(o: Original, index: u16, ambient: real, ghost t: Trial) returns (point: Result<Option<Point>>)
      requires IsTrial(t, ambient)
      modifies this
      ensures old(log) <= log && Harmless(log[|old(log)|..])
      ensures point.Success? <==>
        StepConfirmed(answers, o, index, |old(log)|) && Undisturbed(answers, |old(log)| + 1, ambient)
      ensures point.Success? ==>
        && log == old(log) + StepRequests(o.id, index)
        && point.value == match LevelAt(t, |old(log)| + 1) case None => None case Some(x) => Some(Point(index, x))
    {
      var actual := Exchange(AskVolume(o.id, index));
      if actual.Failure? || !CommitConfirmed(actual.value, o.status, index) {
        return Failure;
      }
      var raw := MeasureRaw(o.id, ambient);
      if raw.Failure? {
        return Failure;
      }
      if !Clear(raw.value.signal) {
        return Success(None);
      }
      var v := level(raw.value.signal.level, raw.value.background);
      if v.None? {
        return Success(None);
      }
      return Success(Some(Point(index, v.value)));
    }

    /** The whole range: fails exactly at a step that is not confirmed or a measurement that is
        disturbed. */
    method SampleDevice(o: Original, ambient: real, ghost t: Trial) returns (points: Result<seq<Point>>)
      requires IsTrial(t, ambient)
      modifies this
      ensures old(log) <= log && Harmless(log[|old(log)|..])
      ensures points.Success? <==> StepsTaken(t, o, CurveStart(o), CurveEnd(o), |old(log)|)
      ensures points.Success? ==>
        && points.value == CurveOf(t, CurveStart(o), CurveEnd(o), |old(log)|)
        && log == old(log) + CurveRequests(o, CurveStart(o), CurveEnd(o))
    {
      hide StepRequests, Undisturbed, StepConfirmed, LevelAt;
      var found: seq<Point> := [];
      var index: nat := Max(o.status.minimum, 1);
      while index <= o.status.maximum
        invariant old(log) <= log && Harmless(log[|old(log)|..])
        invariant CurveStart(o) <= index <= CurveEnd(o)
        invariant log == old(log) + CurveRequests(o, CurveStart(o), index)
        invariant StepsTaken(t, o, CurveStart(o), index, |old(log)|)
        invariant found == CurveOf(t, CurveStart(o), index, |old(log)|)
      {
        ghost var before := log;
        var point := SampleStep(o, index, ambient, t);
        if point.Failure? {
          StepFails(t, o, index, |old(log)|);
          return Failure;
        }
        Regroup(old(log), CurveRequests(o, CurveStart(o), index), StepRequests(o.id, index));
        found := AddPoint(found, point.value);
        index := index + 1;
      }
      assert index == CurveEnd(o);
      return Success(found);
    }

    method SampleAll(originals: seq<Original>, ambient: real, ghost t: Trial)
      returns (curves: Result<seq<seq<Point>>>)
      requires IsTrial(t, ambient)
      modifies this
      ensures old(log) <= log && Harmless(log[|old(log)|..])
      ensures curves.Success? <==> CurvesTaken(t, originals, |originals|, |old(log)|)
      ensures curves.Success? ==>
        && curves.value == CurvesOf(t, originals, |originals|, |old(log)|)
        && log == old(log) + CurvesRequests(originals, |originals|)
    {
      hide StepsTaken, CurveOf, CurveRequests;
      var found: seq<seq<Point>> := [];
      for i := 0 to |originals|
        invariant old(log) <= log && Harmless(log[|old(log)|..])
        invariant log == old(log) + CurvesRequests(originals, i)
        invariant CurvesTaken(t, originals, i, |old(log)|)
        invariant found == CurvesOf(t, originals, i, |old(log)|)
      {
        var o := originals[i];
        var points := SampleDevice(o, ambient, t);
        if points.Failure? {
          CurveFails(t, originals, i, |old(log)|);
          return Failure;
        }
        Regroup(old(log), CurvesRequests(originals, i), CurveRequests(o, CurveStart(o), CurveEnd(o)));
        found := found + [points.value];
      }
      return Success(found);
    }

    method Replay(id: nat, index: u16, ambient: real, ghost t: Trial) returns (v: Result<real>)
      requires IsTrial(t, ambient)
      modifies this
      ensures old(log) <= log && Harmless(log[|old(log)|..])
      ensures v.Success? ==> log == old(log) + StepRequests(id, index)
      ensures IsReplay(t, |old(log)|, v)
    {
      var played := Exchange(AskVolume(id, index));
      if played.Failure? {
        return Failure;
      }
      v := Measure(id, ambient, t);
    }

    /** Plays the master at `target` and the follower at `f` once more; tells whether they
        still agree. A master that drifted ends the calibration. */
    method Compare(master: Original, follower: Original, target: Point, f: u16, ambient: real, ghost t: Trial)
      returns (agree: Result<bool>)
      requires IsTrial(t, ambient)
      modifies this
      ensures old(log) <= log && Harmless(log[|old(log)|..])
      ensures agree.Success? <==> Replayable(t, target, |old(log)|)
      ensures agree.Success? ==>
        && log == old(log) + ReplayRequests(master, follower, target.index, f)
        && (agree.value <==> PairAgrees(t, |old(log)|))
    {
      hide StepRequests, Measured, LevelAt, PairAgrees;
      ghost var k := |log|;
      var repeated := Replay(master.id, target.index, ambient, t);
      if repeated.Failure? || Distance(repeated.value, target.level) > 2.0 {
        FirstNotReplayable(t, target, k, repeated);
        return Failure;
      }
      var verified := Replay(follower.id, f, ambient, t);
      if verified.Failure? {
        SecondNotReplayable(t, target, k);
        return Failure;
      }
      PairIsReplayed(t, target, k, repeated.value, verified.value);
      Regroup(old(log), StepRequests(master.id, target.index), StepRequests(follower.id, f));
      return Success(Distance(verified.value, repeated.value) <= 2.0);
    }

    /** The entry for one level of the master, if there is one. */
    method MapTarget(master: Original, follower: Original, target: Point, points: seq<Point>, ambient: real,
                     ghost t: Trial)
      returns (found: Result<Option<u16>>)
      requires IsTrial(t, ambient)
      modifies this
      ensures old(log) <= log && Harmless(log[|old(log)|..])
      ensures found.Success? <==> (NearBest(points, target).Some? ==> Replayable(t, target, |old(log)|))
      ensures found.Success? ==>
        && found.value == EntryOf(t, target, points, |old(log)|)
        && log == old(log) + PairRequests(master, follower, target, points)
    {
      hide Replayable, PairAgrees, ReplayRequests, IsBest, NearBest;
      var best := FindBest(points, target.level);
      NearBestIs(points, target, best);
      if best.None? || Distance(best.value.level, target.level) > 2.0 {
        return Success(None);
      }
      var agree := Compare(master, follower, target, best.value.index, ambient, t);
      if agree.Failure? {
        return Failure;
      }
      return Success(if agree.value then Some(best.value.index) else None);
    }

    /** The follower's index for each level of the master that has one: fails exactly at a
        comparison that cannot be measured or for which the master has drifted. */
    method MapFollower(master: Original, follower: Original, bothZero: bool, targets: seq<Point>,
                       points: seq<Point>, ambient: real, ghost t: Trial)
      returns (mapping: Result<map<u16, u16>>)
      requires IsTrial(t, ambient)
      modifies this
      ensures old(log) <= log && Harmless(log[|old(log)|..])
      ensures mapping.Success? <==> PairsReplayed(t, targets, points, |targets|, |old(log)|)
      ensures mapping.Success? ==>
        && mapping.value == MappingOf(t, bothZero, targets, points, |targets|, |old(log)|)
        && log == old(log) + PairsRequests(master, follower, targets, points, |targets|)
    {
      hide Replayable, PairRequests, EntryOf, NearBest;
      var found: map<u16, u16> := if bothZero then map[0 := 0] else map[];
      for j := 0 to |targets|
        invariant old(log) <= log && Harmless(log[|old(log)|..])
        invariant log == old(log) + PairsRequests(master, follower, targets, points, j)
        invariant PairsReplayed(t, targets, points, j, |old(log)|)
        invariant found == MappingOf(t, bothZero, targets, points, j, |old(log)|)
      {
        var f := MapTarget(master, follower, targets[j], points, ambient, t);
        if f.Failure? {
          PairFails(t, targets, points, j, |old(log)|);
          return Failure;
        }
        Regroup(old(log), PairsRequests(master, follower, targets, points, j),
                PairRequests(master, follower, targets[j], points));
        found := AddEntry(found, targets[j].index, f.value);
      }
      return Success(found);
    }

    // ----- the run -----

    /** Finds the phone of each device; nothing is begun yet. */
    method Prepare(p: Profile, snapshots: seq<Snapshot>) returns (originals: Result<seq<Original>>)
      modifies this
      ensures old(log) <= log && Harmless(log[|old(log)|..])
      ensures originals.Success? <==> AllPresent(answers, snapshots, Devices(p), |old(log)|)
      ensures originals.Success? ==>
        && AreFound(answers, snapshots, Devices(p), |old(log)|, originals.value)
        && log == old(log) + Statuses(originals.value, |originals.value|)
    {
      var found: seq<Original> := [];
      assert log == log + Statuses(found, 0) && AreFoundSoFar(answers, snapshots, Devices(p), |log|, found);
      hide Present, IsFound, Fits, Devices, Statuses, AreFoundSoFar;
      var devices := Devices(p);
      for i := 0 to |devices|
        invariant old(log) <= log && Harmless(log[|old(log)|..])
        invariant |found| == i && log == old(log) + Statuses(found, i)
        invariant AreFoundSoFar(answers, snapshots, devices, |old(log)|, found)
      {
        var o := FindPhone(devices[i], snapshots);
        if o.Failure? {
          return Failure;
        }
        Regroup(old(log), Statuses(found, i), [AskStatus(o.value.id)]);
        OneStatusMore(found, o.value);
        OneFoundMore(answers, snapshots, devices, |old(log)|, found, o.value);
        found := found + [o.value];
      }
      FoundArePresent(answers, snapshots, devices, |old(log)|, found);
      return Success(found);
    }

    method FindPhone(expected: DeviceRange, snapshots: seq<Snapshot>) returns (o: Result<Original>)
      modifies this
      ensures old(log) <= log && Harmless(log[|old(log)|..])
      ensures o.Success? <==> Present(snapshots, expected, answers(|old(log)|))
      ensures o.Success? ==>
        log == old(log) + [AskStatus(o.value.id)] && IsFound(snapshots, expected, answers(|old(log)|), o.value)
    {
      var id: nat, count: nat := 0, 0;
      ghost var at: nat, other: nat := 0, 0;
      for j := 0 to |snapshots|
        invariant count == 0 ==> forall l | 0 <= l < j :: !Names(snapshots[l], expected.id)
        invariant count == 1 ==>
          && at < j && Names(snapshots[at], expected.id) && snapshots[at].id == id
          && forall l | 0 <= l < j && Names(snapshots[l], expected.id) :: l == at
        invariant count > 0 ==> at < j && Names(snapshots[at], expected.id)
        invariant count > 1 ==> other < at && Names(snapshots[other], expected.id)
      {
        if Names(snapshots[j], expected.id) {
          at, other := j, at;
          id, count := if count == 0 then snapshots[j].id else id, count + 1;
        }
      }
      if count != 1 {
        return Failure;
      }
      assert IsOnly(snapshots, expected.id, at);
      var status := Exchange(AskStatus(id));
      if status.Failure? || !Usable(status.value) || !Matches(expected, status.value) {
        return Failure;
      }
      return Success(Original(id, status.value));
    }

    /** Opens the sessions. A phone counts as begun as soon as its request is queued. */
    method BeginAll(originals: seq<Original>) returns (ok: bool, begun: seq<Original>)
      modifies this
      ensures old(log) <= log && Tracks(log, answers, |old(log)|, begun) && begun <= originals
      ensures ok <==> AllBegun(answers, originals, |originals|, |old(log)|)
      ensures ok ==> begun == originals && log == old(log) + Beginning(originals, |originals|)
    {
      begun := [];
      HarmlessCancels(log, answers, |log|);
      assert log == log + Beginning(originals, 0) && AllBegun(answers, originals, 0, |log|);
      hide Tracks, Beginning, AllBegun, BeginConfirmed;
      for i := 0 to |originals|
        invariant old(log) <= log && Tracks(log, answers, |old(log)|, begun)
        invariant begun == originals[..i] && log == old(log) + Beginning(originals, i)
        invariant AllBegun(answers, originals, i, |old(log)|)
      {
        var queued, confirmed := BeginNext(originals, i, |old(log)|);
        Regroup(old(log), Beginning(originals, i), [AskBegin(originals[i].id)]);
        OneBeginMore(answers, originals, i, |old(log)|);
        if !confirmed {
          if AllBegun(answers, originals, |originals|, |old(log)|) {
            FewerBegun(answers, originals, i + 1, |originals|, |old(log)|);
          }
          return false, if queued then begun + [originals[i]] else begun;
        }
        begun := begun + [originals[i]];
      }
      return true, begun;
    }

    method BeginNext(originals: seq<Original>, i: nat, ghost start: nat) returns (queued: bool, confirmed: bool)
      requires i < |originals| && |log| == start + i && Tracks(log, answers, start, originals[..i])
      requires AllBegun(answers, originals, i, start)
      modifies this
      ensures log == old(log) + [AskBegin(originals[i].id)]
      ensures Tracks(log, answers, start, if queued then originals[..i] + [originals[i]] else originals[..i])
      ensures (confirmed <==> AllBegun(answers, originals, i + 1, start)) && (confirmed ==> queued)
    {
      hide Tracks, AllBegun, BeginConfirmed;
      var o := originals[i];
      queued, confirmed := BeginOne(o);
      OneBeginMore(answers, originals, i, start);
      if queued {
        TracksOneMore(old(log), answers, start, originals[..i], o);
      } else {
        TracksUnqueued(old(log), answers, start, originals[..i], o.id);
      }
    }

    method BeginOne(o: Original) returns (queued: bool, confirmed: bool)
      modifies this
      ensures log == old(log) + [AskBegin(o.id)]
      ensures (queued <==> answers(|old(log)|).queued) && (confirmed <==> BeginConfirmed(answers(|old(log)|), o))
      ensures confirmed ==> queued
    {
      var answer := Ask(AskBegin(o.id));
      queued := answer.queued;
      confirmed := queued && answer.status.Some? && !answer.status.value.failed
        && CommitConfirmed(answer.status.value, o.status, o.status.volume);
    }

    method MapAll(p: Profile, originals: seq<Original>, curves: seq<seq<Point>>, ambient: real, ghost t: Trial)
      returns (followers: Result<seq<Follower>>)
      requires |originals| == |curves| == |p.followers| + 1 && IsTrial(t, ambient)
      modifies this
      ensures old(log) <= log && Harmless(log[|old(log)|..])
      ensures followers.Success? <==> FollowersMapped(t, curves, |p.followers|, |old(log)|)
      ensures followers.Success? ==>
        && followers.value == FollowersOf(t, p, curves, |p.followers|, |old(log)|)
        && log == old(log) + FollowersRequests(originals, curves, |p.followers|)
    {
      hide PairsReplayed, MappingOf, PairsRequests, BothZero;
      var found: seq<Follower> := [];
      for i := 0 to |p.followers|
        invariant old(log) <= log && Harmless(log[|old(log)|..])
        invariant log == old(log) + FollowersRequests(originals, curves, i)
        invariant FollowersMapped(t, curves, i, |old(log)|)
        invariant found == FollowersOf(t, p, curves, i, |old(log)|)
      {
        var f := p.followers[i];
        var mapping := MapFollower(originals[0], originals[i + 1], BothZero(p, f), curves[0], curves[i + 1],
                                   ambient, t);
        if mapping.Failure? {
          FollowerFails(t, curves, i, |p.followers|, |old(log)|);
          return Failure;
        }
        Regroup(old(log), FollowersRequests(originals, curves, i),
                PairsRequests(originals[0], originals[i + 1], curves[0], curves[i + 1], |curves[0]|));
        found := found + [f.(mapping := mapping.value)];
      }
      return Success(found);
    }

    /** What happens while the sessions are open. */
    method Sessions(p: Profile, originals: seq<Original>)
      returns (outcome: Result<Profile>, begun: seq<Original>, ghost t: Trial)
      requires ValidProfile(p) && |originals| == |p.followers| + 1
      modifies this
      ensures old(log) <= log && Tracks(log, answers, |old(log)|, begun) && begun <= originals
      ensures outcome.Success? <==> SessionsSucceed(answers, level, p, originals, |old(log)|)
      ensures outcome.Success? ==>
        && begun == originals && RoomQuiet(answers(|old(log)| + |originals|))
        && t == TrialAfter(answers, level, |old(log)| + |originals|)
        && outcome.value == ChartOf(t, p, originals) && log == old(log) + SessionsRequests(t, p, originals)
    {
      hide AllBegun, Beginning, Charted, ChartOf, ChartRequests, ValidProfile, Tracks, RoomQuiet;
      t := Trial(answers, level, 0.0, 0);
      var ok;
      ok, begun := BeginAll(originals);
      if !ok || p.followers == [] {
        return Failure, begun, t;
      }
      ghost var open := log;
      outcome, t := Listened(p, originals);
      HarmlessTracks(open, log, answers, |old(log)|, begun);
      if outcome.Success? {
        Regroup(old(log), Beginning(originals, |originals|), [Listen]);
        Regroup(old(log), Beginning(originals, |originals|) + [Listen], ChartRequests(t, p, originals));
      }
    }

    /** Listens to the room and then charts the group. */
    method Listened(p: Profile, originals: seq<Original>) returns (outcome: Result<Profile>, ghost t: Trial)
      requires ValidProfile(p) && |originals| == |p.followers| + 1
      modifies this
      ensures old(log) <= log && Harmless(log[|old(log)|..])
      ensures outcome.Success? <==> ChartSucceeds(answers, level, p, originals, |old(log)|)
      ensures outcome.Success? ==>
        && RoomQuiet(answers(|old(log)|)) && t == TrialAfter(answers, level, |old(log)|)
        && outcome.value == ChartOf(t, p, originals)
        && log == old(log) + [Listen] + ChartRequests(t, p, originals)
    {
      hide Charted, ChartOf, ChartRequests, ValidProfile;
      t := Trial(answers, level, 0.0, 0);
      var room := Ask(Listen);
      if room.heard.None? || room.heard.value.spread > 3.0 || room.heard.value.tone {
        return Failure, t;
      }
      t := TrialAfter(answers, level, |old(log)|);
      outcome := Chart(p, originals, room.heard.value.level, t);
    }

    method Chart(p: Profile, originals: seq<Original>, ambient: real, ghost t: Trial)
      returns (outcome: Result<Profile>)
      requires ValidProfile(p) && |originals| == |p.followers| + 1
      requires IsTrial(t, ambient) && t.since == |log|
      modifies this
      ensures old(log) <= log && Harmless(log[|old(log)|..])
      ensures outcome.Success? <==> Charted(t, p, originals)
      ensures outcome.Success? ==>
        outcome.value == ChartOf(t, p, originals) && log == old(log) + ChartRequests(t, p, originals)
    {
      hide CurvesTaken, CurvesOf, CurvesRequests, FollowersMapped, FollowersOf, FollowersRequests, ValidProfile, Useful;
      var sampled := SampleAll(originals, ambient, t);
      if sampled.Failure? || sampled.value[0] == [] {
        return Failure;
      }
      var followers := MapAll(p, originals, sampled.value, ambient, t);
      if followers.Failure? {
        return Failure;
      }
      Regroup(old(log), CurvesRequests(originals, |originals|),
              FollowersRequests(originals, sampled.value, |p.followers|));
      var profile := p.(followers := followers.value);
      var valid := Validate(profile);
      if !valid || !Useful(profile) {
        return Failure;
      }
      return Success(profile);
    }

    /** Asks every phone to stop and to restore its volume, and lists those that did not
        confirm it. */
    method Restore(begun: seq<Original>) returns (failures: seq<Original>)
      modifies this
      ensures log == old(log) + [QuietAll] + Restoring(begun)
      ensures failures == Unrestored(answers, begun, |old(log)| + 1)
    {
      var _ := Ask(QuietAll);
      failures := [];
      assert begun[..|begun|] == begun;
      for i := 0 to |begun|
        invariant log == old(log) + [QuietAll] + Restoring(begun[..i])
        invariant failures == Unrestored(answers, begun[..i], |old(log)| + 1)
      {
        var o := begun[i];
        RestoringLength(begun[..i]);
        assert begun[..i + 1][..i] == begun[..i];
        var restored := RestoreOne(o);
        if !restored {
          failures := failures + [o];
        }
      }
    }

    /** The Cancel is sent even when the tone would not stop. */
    method RestoreOne(o: Original) returns (restored: bool)
      modifies this
      ensures log == old(log) + [AskTone(o.id, false), AskCancel(o.id)]
      ensures restored <==> RestoredAt(answers, o, |old(log)|)
    {
      var stopped := SwitchTone(o.id, false);
      var actual := Exchange(AskCancel(o.id));
      return stopped && actual.Success? && CommitConfirmed(actual.value, o.status, o.status.volume);
    }

    /** Restores the phones; tells whether all of them confirmed. */
    method Settle(begun: seq<Original>, ghost prepared: seq<Request>, ghost start: nat) returns (ok: bool)
      requires start <= |prepared| && prepared <= log && Harmless(prepared[start..])
      requires Tracks(log, answers, |prepared|, begun)
      modifies this
      ensures log == old(log) + [QuietAll] + Restoring(begun)
      ensures AllCancelled(log, answers, start) && Tracks(log, answers, start, begun)
      ensures ok <==> AllRestored(answers, begun, |old(log)| + 1)
    {
      hide AllRestored, Unrestored, Restoring;
      ghost var measured := log;
      var failures := Restore(begun);
      RestoreCloses(prepared, measured, log, answers, start, begun);
      RestoredIsNone(answers, begun, |measured| + 1);
      ok := failures == [];
    }

    /** Opens the sessions, calibrates and restores. */
    method RunPrepared(p: Profile, originals: seq<Original>, ghost start: nat)
      returns (outcome: Result<Profile>, begun: seq<Original>, ghost t: Trial)
      requires start <= |log| && Harmless(log[start..])
      requires ValidProfile(p) && |originals| == |p.followers| + 1
      modifies this
      ensures AllCancelled(log, answers, start) && Tracks(log, answers, start, begun)
      ensures outcome.Success? <==> PreparedSucceeds(answers, level, p, originals, |old(log)|)
      ensures outcome.Success? ==>
        && begun == originals && RoomQuiet(answers(|old(log)| + |originals|))
        && t == TrialAfter(answers, level, |old(log)| + |originals|) && outcome.value == ChartOf(t, p, originals)
        && log == old(log) + SessionsRequests(t, p, originals) + [QuietAll] + Restoring(originals)
    {
      hide SessionsSucceed, AllRestored, ValidProfile, ChartOf, ChartRequests, Restoring, Tracks, AllCancelled,
           RoomQuiet;
      ghost var prepared := log;
      outcome, begun, t := Sessions(p, originals);
      ghost var measured := log;
      var ok := Settle(begun, prepared, start);
      if !ok {
        return Failure, begun, t;
      }
    }

    /** The whole calibration. On every path each phone whose Begin was queued is sent a
        Cancel. A profile is returned exactly if the answers allow it. Then all that was asked,
        in this order, is what the run of these phones asks; the sessions were open and the room
        heard before the first tone; the mappings are those that the curves since then
        determine; and each phone confirmed its original volume to its last Cancel. */
    method Run(p: Profile, snapshots: seq<Snapshot>, reference: nat)
      returns (outcome: Result<Profile>, begun: seq<Original>, ghost t: Trial)
      modifies this
      ensures AllCancelled(log, answers, |old(log)|) && Tracks(log, answers, |old(log)|, begun)
      ensures outcome.Success? <==> RunCanSucceed(answers, level, p, snapshots, reference, |old(log)|)
      ensures outcome.Success? ==>
        && RunSucceeds(answers, level, p, snapshots, reference, |old(log)|, begun)
        && t == TrialAfter(answers, level, |old(log)| + 2 * |begun|) && outcome.value == ChartOf(t, p, begun)
        && log == old(log) + RunRequests(t, p, begun)
        && RoomHeard(log, |old(log)|, begun, t) && AllBack(log, answers, |old(log)|, t.since, begun)
        && CalibratedAt(log, t, p, begun, Curves(t, begun), outcome.value)
    {
      hide RunCanSucceed, IsFound, AllPresent, PreparedSucceeds, ChartOf, SessionsRequests, Restoring, Tracks,
           AllCancelled, ValidProfile, Statuses, RoomHeard, AllBack, CalibratedAt, Curves;
      t := Trial(answers, level, 0.0, 0);
      HarmlessCancels(log, answers, |log|);
      var valid := Validate(p);
      if !valid {
        InvalidFails(answers, level, p, snapshots, reference, |log|);
        return Failure, [], t;
      }
      var originals := Prepare(p, snapshots);
      HarmlessCancels(log, answers, |old(log)|);
      if originals.Failure? {
        SuccessIsPresent(answers, level, p, snapshots, reference, |old(log)|);
        return Failure, [], t;
      }
      OnlyFound(answers, level, p, snapshots, reference, |old(log)|, originals.value);
      if originals.value[0].id != reference {
        return Failure, [], t;
      }
      outcome, begun, t := RunPrepared(p, originals.value, |old(log)|);
      if outcome.Success? {
        Regroup4(old(log), Statuses(begun, |begun|), SessionsRequests(t, p, begun), [QuietAll], Restoring(begun));
        SuccessIsSound(old(log), log, answers, level, p, snapshots, reference, begun, t);
      }
    }
  }

  /** The phones found decide whether a run succeeds. */
  lemma OnlyFound(answers: Answers, level: Level, p: Profile, snapshots: seq<Snapshot>, reference: nat, k: nat,
                  originals: seq<Original>)
    requires AreFound(answers, snapshots, Devices(p), k, originals)
    ensures RunCanSucceed(answers, level, p, snapshots, reference, k)
       <==> RunSucceeds(answers, level, p, snapshots, reference, k, originals)
  {
    forall found | RunSucceeds(answers, level, p, snapshots, reference, k, found)
      ensures found == originals
    {
      FoundAreUnique(answers, snapshots, Devices(p), k, found, originals);
    }
  }

  lemma InvalidFails(answers: Answers, level: Level, p: Profile, snapshots: seq<Snapshot>, reference: nat, k: nat)
    requires !ValidProfile(p)
    ensures !RunCanSucceed(answers, level, p, snapshots, reference, k)
  {
  }

  lemma SuccessIsPresent(answers: Answers, level: Level, p: Profile, snapshots: seq<Snapshot>, reference: nat, k: nat)
    ensures RunCanSucceed(answers, level, p, snapshots, reference, k) ==> AllPresent(answers, snapshots, Devices(p), k)
  {
    if RunCanSucceed(answers, level, p, snapshots, reference, k) {
      var found :| RunSucceeds(answers, level, p, snapshots, reference, k, found);
      FoundArePresent(answers, snapshots, Devices(p), k, found);
    }
  }

  lemma {:induction false} StatusesOfPrefix(found: seq<Original>, more: seq<Original>, n: nat)
    requires n <= |found| <= |more| && more[..|found|] == found
    ensures Statuses(more, n) == Statuses(found, n)
  {
    if n > 0 {
      assert more[n - 1] == found[n - 1];
      StatusesOfPrefix(found, more, n - 1);
    }
  }

  lemma OneBeginMore(answers: Answers, originals: seq<Original>, i: nat, k: nat)
    requires i < |originals|
    ensures Beginning(originals, i + 1) == Beginning(originals, i) + [AskBegin(originals[i].id)]
    ensures AllBegun(answers, originals, i + 1, k) <==>
      AllBegun(answers, originals, i, k) && BeginConfirmed(answers(k + i), originals[i])
    ensures originals[..i + 1] == originals[..i] + [originals[i]]
  {
  }

  lemma OneStatusMore(found: seq<Original>, o: Original)
    ensures Statuses(found + [o], |found| + 1) == Statuses(found, |found|) + [AskStatus(o.id)]
  {
    StatusesOfPrefix(found, found + [o], |found|);
  }

  lemma Regroup4<T>(a: seq<T>, b: seq<T>, c: seq<T>, d: seq<T>, e: seq<T>)
    ensures a + b + c + d + e == a + (b + c + d + e)
  {
  }

  // ----- where a loop fails -----

  lemma StepFails(t: Trial, o: Original, index: u16, k: nat)
    requires CurveStart(o) <= index < CurveEnd(o) && !StepTaken(t, o, CurveStart(o), index, k)
    ensures !StepsTaken(t, o, CurveStart(o), CurveEnd(o), k)
  {
    if StepsTaken(t, o, CurveStart(o), CurveEnd(o), k) {
      FewerStepsTaken(t, o, CurveStart(o), index + 1, CurveEnd(o), k);
    }
  }

  lemma CurveFails(t: Trial, originals: seq<Original>, i: nat, k: nat)
    requires i < |originals| && !CurveTaken(t, originals, i, k)
    ensures !CurvesTaken(t, originals, |originals|, k)
  {
    if CurvesTaken(t, originals, |originals|, k) {
      FewerCurvesTaken(t, originals, i + 1, |originals|, k);
    }
  }

  lemma PairFails(t: Trial, targets: seq<Point>, points: seq<Point>, j: nat, k: nat)
    requires j < |targets| && !PairReplayed(t, targets, points, j, k)
    ensures !PairsReplayed(t, targets, points, |targets|, k)
  {
    if PairsReplayed(t, targets, points, |targets|, k) {
      FewerPairsReplayed(t, targets, points, j + 1, |targets|, k);
    }
  }

  lemma FollowerFails(t: Trial, curves: seq<seq<Point>>, i: nat, n: nat, k: nat)
    requires i < n < |curves| && !FollowerMapped(t, curves, i, k)
    ensures !FollowersMapped(t, curves, n, k)
  {
    if FollowersMapped(t, curves, n, k) {
      FewerFollowersMapped(t, curves, i + 1, n, k);
    }
  }

  lemma {:induction false} FewerBegun(answers: Answers, originals: seq<Original>, i: nat, n: nat, k: nat)
    requires i <= n <= |originals| && AllBegun(answers, originals, n, k)
    ensures AllBegun(answers, originals, i, k)
    decreases n
  {
    if i < n {
      FewerBegun(answers, originals, i, n - 1, k);
    }
  }

  lemma PairIsReplayed(t: Trial, target: Point, k: nat, repeated: real, verified: real)
    requires IsReplay(t, k, Success(repeated)) && Distance(repeated, target.level) <= 2.0
    requires IsReplay(t, k + 7, Success(verified))
    ensures Replayable(t, target, k) && (PairAgrees(t, k) <==> Distance(verified, repeated) <= 2.0)
  {
    assert Replays(t, target, k, repeated, verified);
  }

  lemma RestoredIsNone(answers: Answers, begun: seq<Original>, k: nat)
    ensures Unrestored(answers, begun, k) == [] <==> AllRestored(answers, begun, k)
  {
    NoneUnrestored(answers, begun, k);
  }

  lemma TracksUnqueued(log: seq<Request>, answers: Answers, start: nat, begun: seq<Original>, id: nat)
    requires Tracks(log, answers, start, begun) && start <= |log| && !answers(|log|).queued
    ensures Tracks(log + [AskBegin(id)], answers, start, begun)
  {
  }

  /** After the restoration every session begun was cancelled, and only phones in `begun` had one. */
  lemma RestoreCloses(prepared: seq<Request>, measured: seq<Request>, log: seq<Request>, answers: Answers,
                      start: nat, begun: seq<Original>)
    requires start <= |prepared| && prepared <= measured && Harmless(prepared[start..])
    requires Tracks(measured, answers, |prepared|, begun)
    requires log == measured + [QuietAll] + Restoring(begun)
    ensures AllCancelled(log, answers, start) && Tracks(log, answers, start, begun)
  {
    TracksFrom(prepared, measured, answers, start, begun);
    RestoringCancelsAll(measured, answers, start, begun);
    RestoringKeepsTracks(measured, answers, start, begun);
  }

  lemma HarmlessCancels(log: seq<Request>, answers: Answers, start: nat)
    requires start <= |log| && Harmless(log[start..])
    ensures AllCancelled(log, answers, start) && Tracks(log, answers, start, [])
  {
  }

  lemma TracksFrom(log: seq<Request>, later: seq<Request>, answers: Answers, start: nat, begun: seq<Original>)
    requires start <= |log| && log <= later && Harmless(log[start..]) && Tracks(later, answers, |log|, begun)
    ensures Tracks(later, answers, start, begun)
  {
  }

  lemma TracksOneMore(log: seq<Request>, answers: Answers, start: nat, begun: seq<Original>, o: Original)
    requires Tracks(log, answers, start, begun) && start <= |log|
    ensures Tracks(log + [AskBegin(o.id)], answers, start, begun + [o])
  {
  }
}
