/** What the log of a successful calibration proves
    (windows-server/src/application/calibration.rs:106-274). */
module CalibrationEvidence {
  import opened Numbers
  import opened ControlMessages
  import opened VolumeProfiles
  import opened CalibrationLog
  import opened CalibrationCurves
  import opened CalibrationCourse

  // ----- curves -----

  /** A curve's requests, answered as they must be, show the curve. */
  lemma {:induction false} CurveIsSeen(before: seq<Request>, log: seq<Request>, t: Trial, o: Original, hi: nat)
    requires CurveStart(o) <= hi <= 0x1_0000 && t.since <= |before|
    requires log == before + CurveRequests(o, CurveStart(o), hi) && StepsTaken(t, o, CurveStart(o), hi, |before|)
    ensures IsCurveTo(log, t, o, CurveOf(t, CurveStart(o), hi, |before|), hi)
    decreases hi
  {
    hide StepRequests, StepTaken, IsCurveTo, CurveOf;
    if hi == CurveStart(o) {
      NoStepSeen(before, t, o);
      assert before + [] == before;
    } else {
      var prior := before + CurveRequests(o, CurveStart(o), hi - 1);
      CurveIsSeen(before, prior, t, o, hi - 1);
      Regroup(before, CurveRequests(o, CurveStart(o), hi - 1), StepRequests(o.id, hi - 1));
      OneStepSeen(prior, log, t, o, hi - 1, |before|);
    }
  }

  lemma NoStepSeen(log: seq<Request>, t: Trial, o: Original)
    requires CurveStart(o) <= 0x1_0000
    ensures IsCurveTo(log, t, o, CurveOf(t, CurveStart(o), CurveStart(o), |log|), CurveStart(o))
  {
  }

  lemma OneStepSeen(prior: seq<Request>, log: seq<Request>, t: Trial, o: Original, index: u16, k: nat)
    requires CurveStart(o) <= index && t.since <= k && log == prior + StepRequests(o.id, index)
    requires |prior| == k + CurveLength(CurveStart(o), index) && StepTaken(t, o, CurveStart(o), index, k)
    requires IsCurveTo(prior, t, o, CurveOf(t, CurveStart(o), index, k), index)
    ensures IsCurveTo(log, t, o, CurveOf(t, CurveStart(o), index + 1, k), index + 1)
  {
    LevelIsMeasured(t, |prior| + 1);
    var p := match LevelAt(t, |prior| + 1) case None => None case Some(x) => Some(Point(index, x));
    CurveFurther(prior, log, t, o, CurveOf(t, CurveStart(o), index, k), p, index);
  }

  lemma CurvesStep(before: seq<Request>, t: Trial, originals: seq<Original>, n: nat)
    requires 0 < n <= |originals|
    ensures var o, prior := originals[n - 1], before + CurvesRequests(originals, n - 1);
            && before + CurvesRequests(originals, n) == prior + CurveRequests(o, CurveStart(o), CurveEnd(o))
            && |prior| == |before| + CurvesLength(originals, n - 1)
            && CurvesOf(t, originals, n, |before|)
               == CurvesOf(t, originals, n - 1, |before|) + [CurveOf(t, CurveStart(o), CurveEnd(o), |prior|)]
  {
    hide StepRequests, CurveRequests;
    var o := originals[n - 1];
    Regroup(before, CurvesRequests(originals, n - 1), CurveRequests(o, CurveStart(o), CurveEnd(o)));
  }

  lemma {:induction false} CurveIsKept(before: seq<Request>, log: seq<Request>, t: Trial, originals: seq<Original>,
                                       n: nat, i: nat)
    requires i < n <= |originals| && t.since <= |before| && CurvesTaken(t, originals, n, |before|)
    requires log == before + CurvesRequests(originals, n)
    ensures IsCurve(log, t, originals[i], CurvesOf(t, originals, n, |before|)[i])
    decreases n
  {
    hide StepRequests, CurveRequests, IsCurveTo, StepsTaken, CurveOf;
    var o, prior := originals[n - 1], before + CurvesRequests(originals, n - 1);
    CurvesStep(before, t, originals, n);
    if i == n - 1 {
      assert CurveTaken(t, originals, n - 1, |before|);
      CurveIsSeen(prior, log, t, o, CurveEnd(o));
    } else {
      CurveIsKept(before, prior, t, originals, n - 1, i);
      CurveGrows(prior, log, t, originals[i], CurvesOf(t, originals, n - 1, |before|)[i], CurveEnd(originals[i]));
    }
  }

  // ----- mappings -----

  lemma PairIsDecided(before: seq<Request>, log: seq<Request>, t: Trial, master: Original, follower: Original,
                      target: Point, points: seq<Point>)
    requires t.since <= |before| && log == before + PairRequests(master, follower, target, points)
    requires NearBest(points, target).Some? ==> Replayable(t, target, |before|)
    ensures Decided(log, t, master, follower, target, points, EntryOf(t, target, points, |before|))
  {
    NearBestIsBest(points, target);
    if NearBest(points, target).Some? {
      LevelIsMeasured(t, |before| + 1);
      LevelIsMeasured(t, |before| + 8);
      var best := NearBest(points, target).value;
      var repeated, verified :| Replays(t, target, |before|, repeated, verified);
      var middle := before + StepRequests(master.id, target.index);
      assert log == middle + StepRequests(follower.id, best.index);
      JudgedBy(before, middle, log, t, master, follower, target, best.index, repeated, verified);
      DecidedBy(log, t, master, follower, target, points, best, |before|, Distance(verified, repeated) <= 2.0);
    }
  }

  /** Ascending indices from 1 on, as every curve has them. */
  predicate Climbs(points: seq<Point>) {
    Ascends(points) && forall p <- points :: p.index >= 1
  }

  lemma PairsStep(before: seq<Request>, master: Original, follower: Original, targets: seq<Point>,
                  points: seq<Point>, n: nat)
    requires 0 < n <= |targets|
    ensures var prior := before + PairsRequests(master, follower, targets, points, n - 1);
            && before + PairsRequests(master, follower, targets, points, n)
               == prior + PairRequests(master, follower, targets[n - 1], points)
            && |prior| == |before| + PairsLength(targets, points, n - 1)
  {
    hide PairRequests;
    Regroup(before, PairsRequests(master, follower, targets, points, n - 1),
            PairRequests(master, follower, targets[n - 1], points));
  }

  lemma {:induction false} DecisionIsKept(before: seq<Request>, log: seq<Request>, t: Trial, master: Original,
                                          follower: Original, targets: seq<Point>, points: seq<Point>, n: nat,
                                          j: nat)
    requires j < n <= |targets| && t.since <= |before|
    requires log == before + PairsRequests(master, follower, targets, points, n)
    requires PairsReplayed(t, targets, points, n, |before|)
    ensures Decided(log, t, master, follower, targets[j], points,
                    EntryOf(t, targets[j], points, |before| + PairsLength(targets, points, j)))
    decreases n
  {
    hide PairRequests, Decided, EntryOf, Replayable;
    var prior := before + PairsRequests(master, follower, targets, points, n - 1);
    PairsStep(before, master, follower, targets, points, n);
    if j == n - 1 {
      assert PairReplayed(t, targets, points, n - 1, |before|);
      PairIsDecided(prior, log, t, master, follower, targets[j], points);
    } else {
      DecisionIsKept(before, prior, t, master, follower, targets, points, n - 1, j);
      DecidedGrows(prior, PairRequests(master, follower, targets[n - 1], points), t, master, follower, targets[j],
                   points, EntryOf(t, targets[j], points, |before| + PairsLength(targets, points, j)));
    }
  }

  /** The mapping has, for each level, exactly what its comparison decided. */
  lemma {:induction false} MappingLooksUp(t: Trial, bothZero: bool, targets: seq<Point>, points: seq<Point>, n: nat,
                                          k: nat, j: nat)
    requires j < n <= |targets| && Climbs(targets)
    ensures Lookup(MappingOf(t, bothZero, targets, points, n, k), targets[j].index)
         == EntryOf(t, targets[j], points, k + PairsLength(targets, points, j))
    decreases n
  {
    hide EntryOf;
    if j < n - 1 {
      assert targets[j].index < targets[n - 1].index;
      MappingLooksUp(t, bothZero, targets, points, n - 1, k, j);
    } else {
      OnlyEarlierMapped(t, bothZero, targets, points, n - 1, k, targets[j].index);
      assert targets[j] in targets;
    }
  }

  lemma {:induction false} OnlyEarlierMapped(t: Trial, bothZero: bool, targets: seq<Point>, points: seq<Point>,
                                             n: nat, k: nat, m: u16)
    requires n <= |targets| && Climbs(targets)
    ensures m in MappingOf(t, bothZero, targets, points, n, k) ==>
      (bothZero && m == 0) || (n > 0 && m <= targets[n - 1].index && IsTarget(targets, m))
    ensures bothZero ==> Lookup(MappingOf(t, bothZero, targets, points, n, k), 0) == Some(0)
    decreases n
  {
    hide EntryOf;
    if n > 0 {
      OnlyEarlierMapped(t, bothZero, targets, points, n - 1, k, m);
      assert targets[n - 1] in targets;
      assert n > 1 ==> targets[n - 2].index < targets[n - 1].index;
    }
  }

  lemma MappingIsSeen(before: seq<Request>, log: seq<Request>, t: Trial, master: Original, follower: Original,
                      bothZero: bool, targets: seq<Point>, points: seq<Point>)
    requires t.since <= |before| && Climbs(targets)
    requires log == before + PairsRequests(master, follower, targets, points, |targets|)
    requires PairsReplayed(t, targets, points, |targets|, |before|)
    ensures IsMapping(log, t, master, follower, bothZero, targets, points,
                      MappingOf(t, bothZero, targets, points, |targets|, |before|))
  {
    hide Decided, EntryOf, PairRequests, PairsRequests, PairsReplayed, PairReplayed, MappingOf;
    var mapping := MappingOf(t, bothZero, targets, points, |targets|, |before|);
    OnlyEarlierMapped(t, bothZero, targets, points, |targets|, |before|, 0);
    forall m | m in mapping
      ensures (bothZero && m == 0) || IsTarget(targets, m)
    {
      OnlyEarlierMapped(t, bothZero, targets, points, |targets|, |before|, m);
    }
    forall target | target in targets
      ensures Decided(log, t, master, follower, target, points, Lookup(mapping, target.index))
    {
      var j :| 0 <= j < |targets| && targets[j] == target;
      DecisionIsKept(before, log, t, master, follower, targets, points, |targets|, j);
      MappingLooksUp(t, bothZero, targets, points, |targets|, |before|, j);
    }
  }

  ghost function FollowerOf(t: Trial, p: Profile, curves: seq<seq<Point>>, i: nat, k: nat): Follower
    requires i < |p.followers| && |curves| == |p.followers| + 1
  {
    var f := p.followers[i];
    f.(mapping := MappingOf(t, BothZero(p, f), curves[0], curves[i + 1], |curves[0]|, k))
  }

  lemma FollowersStep(before: seq<Request>, t: Trial, p: Profile, originals: seq<Original>, curves: seq<seq<Point>>,
                      n: nat)
    requires 0 < n <= |p.followers| && |originals| == |curves| == |p.followers| + 1
    ensures var prior := before + FollowersRequests(originals, curves, n - 1);
            && before + FollowersRequests(originals, curves, n)
               == prior + PairsRequests(originals[0], originals[n], curves[0], curves[n], |curves[0]|)
            && |prior| == |before| + FollowersLength(curves, n - 1)
            && FollowersOf(t, p, curves, n, |before|)
               == FollowersOf(t, p, curves, n - 1, |before|) + [FollowerOf(t, p, curves, n - 1, |prior|)]
  {
    hide PairsRequests, MappingOf;
    Regroup(before, FollowersRequests(originals, curves, n - 1),
            PairsRequests(originals[0], originals[n], curves[0], curves[n], |curves[0]|));
  }

  ghost predicate MappedAt(log: seq<Request>, t: Trial, p: Profile, originals: seq<Original>,
                           curves: seq<seq<Point>>, f: Follower, i: nat)
    requires i < |p.followers| && |originals| == |curves| == |p.followers| + 1
  {
    && f.device == p.followers[i].device
    && IsMapping(log, t, originals[0], originals[i + 1], BothZero(p, p.followers[i]),
                 curves[0], curves[i + 1], f.mapping)
  }

  lemma {:induction false} FollowerIsKept(before: seq<Request>, log: seq<Request>, t: Trial, p: Profile,
                                          originals: seq<Original>, curves: seq<seq<Point>>, n: nat, i: nat)
    requires i < n <= |p.followers| && |originals| == |curves| == |p.followers| + 1 && t.since <= |before|
    requires Climbs(curves[0]) && FollowersMapped(t, curves, n, |before|)
    requires log == before + FollowersRequests(originals, curves, n)
    ensures MappedAt(log, t, p, originals, curves, FollowersOf(t, p, curves, n, |before|)[i], i)
    decreases n
  {
    hide PairsRequests, MappingOf, IsMapping, PairsReplayed, Climbs;
    var prior := before + FollowersRequests(originals, curves, n - 1);
    FollowersStep(before, t, p, originals, curves, n);
    if i == n - 1 {
      assert FollowerMapped(t, curves, n - 1, |before|);
      MappingIsSeen(prior, log, t, originals[0], originals[n], BothZero(p, p.followers[i]), curves[0], curves[n]);
    } else {
      FollowerIsKept(before, prior, t, p, originals, curves, n - 1, i);
      MappingGrows(prior, log, t, originals[0], originals[i + 1], BothZero(p, p.followers[i]), curves[0],
                   curves[i + 1], FollowersOf(t, p, curves, n - 1, |before|)[i].mapping);
    }
  }

  // ----- the whole run -----

  /** `result` is the profile with exactly the mappings that the phones' curves determine. */
  ghost predicate CalibratedAt(log: seq<Request>, t: Trial, p: Profile, originals: seq<Original>,
                               curves: seq<seq<Point>>, result: Profile)
  {
    && result == p.(followers := result.followers) && |result.followers| == |p.followers|
    && |originals| == |curves| == |p.followers| + 1 && curves[0] != []
    && (forall i | 0 <= i < |originals| :: IsCurve(log, t, originals[i], curves[i]))
    && forall i | 0 <= i < |p.followers| :: MappedAt(log, t, p, originals, curves, result.followers[i], i)
  }

  lemma CurveClimbs(log: seq<Request>, t: Trial, o: Original, points: seq<Point>)
    requires IsCurve(log, t, o, points)
    ensures Climbs(points)
  {
  }

  /** The requests of a charted group, answered as they must be, calibrate the profile. */
  lemma ChartIsSeen(before: seq<Request>, log: seq<Request>, t: Trial, p: Profile, originals: seq<Original>)
    requires |originals| == |p.followers| + 1 && t.since == |before|
    requires log == before + ChartRequests(t, p, originals) && Charted(t, p, originals)
    ensures CalibratedAt(log, t, p, originals, Curves(t, originals), ChartOf(t, p, originals))
  {
    hide CurvesRequests, FollowersRequests, CurvesTaken, FollowersMapped, IsCurve, MappedAt, CurvesOf, FollowersOf,
         Climbs, ValidProfile, Useful;
    var sampled := before + CurvesRequests(originals, |originals|);
    var curves := Curves(t, originals);
    Regroup(before, CurvesRequests(originals, |originals|), FollowersRequests(originals, curves, |p.followers|));
    forall i | 0 <= i < |originals|
      ensures IsCurve(sampled, t, originals[i], curves[i]) && IsCurve(log, t, originals[i], curves[i])
    {
      CurveIsKept(before, sampled, t, originals, |originals|, i);
      CurveStays(sampled, log, t, originals[i], curves[i]);
    }
    CurveClimbs(sampled, t, originals[0], curves[0]);
    forall i | 0 <= i < |p.followers|
      ensures MappedAt(log, t, p, originals, curves, ChartOf(t, p, originals).followers[i], i)
    {
      FollowerIsKept(sampled, log, t, p, originals, curves, |p.followers|, i);
    }
  }

  lemma CurveStays(log: seq<Request>, later: seq<Request>, t: Trial, o: Original, points: seq<Point>)
    requires IsCurve(log, t, o, points) && log <= later
    ensures IsCurve(later, t, o, points)
  {
    CurveGrows(log, later, t, o, points, CurveEnd(o));
  }

  lemma CalibrationStays(log: seq<Request>, later: seq<Request>, t: Trial, p: Profile, originals: seq<Original>,
                         curves: seq<seq<Point>>, result: Profile)
    requires CalibratedAt(log, t, p, originals, curves, result) && log <= later
    ensures CalibratedAt(later, t, p, originals, curves, result)
  {
    hide IsCurve, IsMapping;
    forall i | 0 <= i < |originals|
      ensures IsCurve(later, t, originals[i], curves[i])
    {
      CurveStays(log, later, t, originals[i], curves[i]);
    }
    forall i | 0 <= i < |p.followers|
      ensures MappedAt(later, t, p, originals, curves, result.followers[i], i)
    {
      assert MappedAt(log, t, p, originals, curves, result.followers[i], i);
      MappingGrows(log, later, t, originals[0], originals[i + 1], BothZero(p, p.followers[i]), curves[0],
                   curves[i + 1], result.followers[i].mapping);
    }
  }

  /** Every entry of a calibrated profile was earned by measurement. */
  lemma CalibratedIsEarned(log: seq<Request>, t: Trial, p: Profile, originals: seq<Original>,
                           curves: seq<seq<Point>>, result: Profile, i: nat, m: u16)
    requires CalibratedAt(log, t, p, originals, curves, result)
    requires i < |p.followers| && m in result.followers[i].mapping
    ensures Earned(log, t, originals[0], originals[i + 1], BothZero(p, p.followers[i]),
                   m, result.followers[i].mapping[m])
  {
    hide IsCurve, IsMapping, Earned;
    assert MappedAt(log, t, p, originals, curves, result.followers[i], i);
    MappingIsEarned(log, t, originals[0], originals[i + 1], BothZero(p, p.followers[i]), curves[0], curves[i + 1],
                    result.followers[i].mapping, m);
  }

  // ----- sessions -----

  /** Every phone's volume was known before any session began, and confirmed to the Cancel that
      came last, after all measuring. */
  ghost predicate AllBack(log: seq<Request>, answers: Answers, start: nat, since: nat, begun: seq<Original>) {
    forall o <- begun :: Known(log, answers, start, o) && Confirmed(log, answers, since, o)
  }

  /** The phone's session was opened with request `k`, and confirmed at its original volume. */
  ghost predicate OpenedAt(log: seq<Request>, answers: Answers, start: nat, until: nat, o: Original, k: nat) {
    start <= k < until <= |log| && log[k] == AskBegin(o.id) && BeginConfirmed(answers(k), o)
  }

  ghost predicate Opened(log: seq<Request>, answers: Answers, start: nat, until: nat, o: Original) {
    exists k: nat :: OpenedAt(log, answers, start, until, o, k)
  }

  /** No tone started and no volume set. */
  predicate Silent(requests: seq<Request>) {
    forall r <- requests :: !r.AskVolume? && !(r.AskTone? && r.enabled)
  }

  /** The last request before `t.since` heard the room, when all sessions were open and no tone
      had been played. */
  ghost predicate RoomHeard(log: seq<Request>, start: nat, begun: seq<Original>, t: Trial) {
    && start < t.since <= |log| && log[t.since - 1] == Listen && Silent(log[start..t.since])
    && RoomQuiet(t.answers(t.since - 1)) && t.answers(t.since - 1).heard.value.level == t.ambient
    && forall o <- begun :: Opened(log, t.answers, start, t.since, o)
  }

  lemma {:induction false} BeginningAt(originals: seq<Original>, n: nat, i: nat)
    requires i < n <= |originals|
    ensures Beginning(originals, n)[i] == AskBegin(originals[i].id)
  {
    if i < n - 1 {
      BeginningAt(originals, n - 1, i);
    }
  }

  lemma {:induction false} BeginningIsSilent(originals: seq<Original>, n: nat)
    requires n <= |originals|
    ensures Silent(Beginning(originals, n))
  {
    if n > 0 {
      BeginningIsSilent(originals, n - 1);
    }
  }

  lemma {:induction false} StatusesAreSilent(originals: seq<Original>, n: nat)
    requires n <= |originals|
    ensures Silent(Statuses(originals, n)) && Harmless(Statuses(originals, n))
  {
    if n > 0 {
      StatusesAreSilent(originals, n - 1);
    }
  }

  lemma {:induction false} StatusesAt(originals: seq<Original>, n: nat, i: nat)
    requires i < n <= |originals|
    ensures Statuses(originals, n)[i] == AskStatus(originals[i].id)
  {
    if i < n - 1 {
      StatusesAt(originals, n - 1, i);
    }
  }

  /** The requests that find the phones and open their sessions, up to listening to the room. */
  function Opening(originals: seq<Original>): (r: seq<Request>)
    ensures |r| == 2 * |originals| + 1
  {
    Statuses(originals, |originals|) + Beginning(originals, |originals|) + [Listen]
  }

  lemma {:induction false} StatusIsKnown(start: seq<Request>, rest: seq<Request>, answers: Answers,
                                         originals: seq<Original>, i: nat)
    requires i < |originals| && Replied(answers(|start| + i))
    requires answers(|start| + i).status == Some(originals[i].status)
    ensures Known(start + Statuses(originals, |originals|) + rest, answers, |start|, originals[i])
  {
    hide Statuses;
    var n := |originals|;
    var statuses := Statuses(originals, n);
    var log := start + statuses + rest;
    StatusesAt(originals, n, i);
    StatusesAreSilent(originals, n);
    assert log[|start|..|start| + i] == statuses[..i];
    assert KnownAt(log, answers, |start|, originals[i], |start| + i);
  }

  lemma {:induction false} BeginIsOpened(start: seq<Request>, rest: seq<Request>, answers: Answers,
                                         originals: seq<Original>, i: nat)
    requires i < |originals| && AllBegun(answers, originals, |originals|, |start| + |originals|)
    ensures Opened(start + Opening(originals) + rest, answers, |start|, |start| + 2 * |originals| + 1, originals[i])
  {
    hide Statuses, Beginning, AllBegun, BeginConfirmed;
    var n := |originals|;
    var log := start + Opening(originals) + rest;
    BeginningAt(originals, n, i);
    AllBegunAt(answers, originals, n, |start| + n, i);
    assert log[|start| + n + i] == Opening(originals)[n + i] == Beginning(originals, n)[i];
    assert OpenedAt(log, answers, |start|, |start| + 2 * n + 1, originals[i], |start| + n + i);
  }

  lemma {:induction false} OpeningIsSilent(originals: seq<Original>)
    ensures Silent(Opening(originals)) && Opening(originals)[2 * |originals|] == Listen
  {
    hide Statuses, Beginning;
    StatusesAreSilent(originals, |originals|);
    BeginningIsSilent(originals, |originals|);
  }

  lemma {:induction false} RoomIsHeard(start: seq<Request>, rest: seq<Request>, originals: seq<Original>, t: Trial)
    requires t.since == |start| + 2 * |originals| + 1
    requires AllBegun(t.answers, originals, |originals|, |start| + |originals|)
    requires RoomQuiet(t.answers(t.since - 1)) && t.ambient == t.answers(t.since - 1).heard.value.level
    ensures RoomHeard(start + Opening(originals) + rest, |start|, originals, t)
  {
    hide AllBegun, Opening, Silent, Opened;
    var log := start + Opening(originals) + rest;
    OpeningIsSilent(originals);
    assert log[|start|..t.since] == Opening(originals);
    assert log[t.since - 1] == Opening(originals)[2 * |originals|];
    forall o | o in originals
      ensures Opened(log, t.answers, |start|, t.since, o)
    {
      var i :| 0 <= i < |originals| && originals[i] == o;
      BeginIsOpened(start, rest, t.answers, originals, i);
    }
  }

  lemma EarlierConfirmed(log: seq<Request>, answers: Answers, since: nat, later: nat, o: Original)
    requires since <= later && Confirmed(log, answers, later, o)
    ensures Confirmed(log, answers, since, o)
  {
    var k: nat :| ConfirmedAt(log, answers, later, o, k);
    assert ConfirmedAt(log, answers, since, o, k);
  }

  lemma {:induction false} AllAreBack(start: seq<Request>, rest: seq<Request>, charted: seq<Request>,
                                      log: seq<Request>, answers: Answers, snapshots: seq<Snapshot>,
                                      devices: seq<DeviceRange>, originals: seq<Original>, since: nat)
    requires log == start + Statuses(originals, |originals|) + rest && since <= |charted|
    requires log == charted + [QuietAll] + Restoring(originals)
    requires AreFound(answers, snapshots, devices, |start|, originals)
    requires AllRestored(answers, originals, |charted| + 1)
    ensures AllBack(log, answers, |start|, since, originals)
  {
    hide Statuses, Restoring, Known, Confirmed;
    forall o | o in originals
      ensures Known(log, answers, |start|, o) && Confirmed(log, answers, since, o)
    {
      var i :| 0 <= i < |originals| && originals[i] == o;
      assert IsFound(snapshots, devices[i], answers(|start| + i), originals[i]);
      StatusIsKnown(start, rest, answers, originals, i);
      RestoredIsConfirmed(charted, answers, originals, i);
      EarlierConfirmed(log, answers, since, |charted|, o);
    }
  }

  lemma InOrder<T>(a: seq<T>, s: seq<T>, b: seq<T>, l: seq<T>, c: seq<T>, q: seq<T>, r: seq<T>)
    ensures a + (s + (b + l + c) + q + r) == a + (s + b + l) + c + q + r
    ensures a + (s + (b + l + c) + q + r) == a + (s + b + l) + (c + q + r)
    ensures a + (s + (b + l + c) + q + r) == a + s + (b + l + c + q + r)
  {
    var sessions, room := b + l + c, a + (s + b + l);
    Regroup(a, s + sessions + q, r);
    Regroup(a, s + sessions, q);
    Regroup(a, s, sessions);
    Regroup(a + s, b + l, c);
    Regroup(a + s, b, l);
    Regroup(a, s + b, l);
    Regroup(a, s, b);
    Regroup(a + s, sessions, q);
    Regroup(a + s, sessions + q, r);
    Regroup(room, c, q);
    Regroup(room, c + q, r);
  }

  /** What a successful run proves: the room was heard with all sessions open and no tone
      played; the result is exactly the profile that the curves since then determine; and each
      phone confirmed its original volume to the Cancel that came last. */
  lemma {:induction false} SuccessIsSound(start: seq<Request>, log: seq<Request>, answers: Answers, level: Level,
                                          p: Profile, snapshots: seq<Snapshot>, reference: nat,
                                          originals: seq<Original>, t: Trial)
    requires RunSucceeds(answers, level, p, snapshots, reference, |start|, originals)
    requires t == TrialAfter(answers, level, |start| + 2 * |originals|) && log == start + RunRequests(t, p, originals)
    ensures RoomHeard(log, |start|, originals, t) && AllBack(log, answers, |start|, t.since, originals)
    ensures CalibratedAt(log, t, p, originals, Curves(t, originals), ChartOf(t, p, originals))
  {
    hide ChartRequests, Restoring, AllBegun, AllRestored, Charted, ChartOf, Curves, AllBack, RoomHeard,
         CalibratedAt, AreFound, Statuses, Beginning, ValidProfile;
    var n, chart := |originals|, ChartRequests(t, p, originals);
    InOrder(start, Statuses(originals, n), Beginning(originals, n), [Listen], chart, [QuietAll], Restoring(originals));
    var room := start + Opening(originals);
    RoomIsHeard(start, chart + [QuietAll] + Restoring(originals), originals, t);
    ChartIsSeen(room, room + chart, t, p, originals);
    CalibrationStays(room + chart, log, t, p, originals, Curves(t, originals), ChartOf(t, p, originals));
    AllAreBack(start, SessionsRequests(t, p, originals) + [QuietAll] + Restoring(originals), room + chart,
               log, answers, snapshots, Devices(p), originals, t.since);
  }
}
