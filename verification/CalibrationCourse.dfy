/** Which course a calibration takes: whether it succeeds, and with what result, follows from the answers alone. Answer
    `k` belongs to request `k` (windows-server/src/application/calibration.rs:106-274). */
module CalibrationCourse {
  import opened Numbers
  import opened ControlMessages
  import opened VolumeProfiles
  import opened CalibrationLog
  import opened CalibrationCurves

  lemma Regroup<T>(a: seq<T>, b: seq<T>, c: seq<T>)
    ensures a + b + c == a + (b + c)
  {
  }

  // ----- finding the phones -----

  datatype Snapshot = Snapshot(id: nat, device: Option<DeviceStatus>)

  predicate Names(s: Snapshot, id: string) {
    s.device.Some? && s.device.value.deviceId == id
  }

  /** The one snapshot that names the device. */
  ghost predicate IsOnly(snapshots: seq<Snapshot>, id: string, j: nat) {
    && j < |snapshots| && Names(snapshots[j], id)
    && forall l | 0 <= l < |snapshots| && Names(snapshots[l], id) :: l == j
  }

  /** The phone is fit to be calibrated and is the profile's. */
  predicate Fits(expected: DeviceRange, a: Answer) {
    Replied(a) && Usable(a.status.value) && Matches(expected, a.status.value)
  }

  ghost predicate Present(snapshots: seq<Snapshot>, expected: DeviceRange, a: Answer) {
    (exists j: nat :: IsOnly(snapshots, expected.id, j)) && Fits(expected, a)
  }

  /** `o` is the receiver of the one snapshot that names the device, with the status it answered. */
  ghost predicate IsFound(snapshots: seq<Snapshot>, expected: DeviceRange, a: Answer, o: Original) {
    && Fits(expected, a) && o.status == a.status.value
    && exists j: nat :: IsOnly(snapshots, expected.id, j) && snapshots[j].id == o.id
  }

  ghost predicate AllPresent(answers: Answers, snapshots: seq<Snapshot>, devices: seq<DeviceRange>, k: nat) {
    forall i | 0 <= i < |devices| :: Present(snapshots, devices[i], answers(k + i))
  }

  ghost predicate AreFound(answers: Answers, snapshots: seq<Snapshot>, devices: seq<DeviceRange>, k: nat,
                           originals: seq<Original>)
  {
    |originals| == |devices| && AreFoundSoFar(answers, snapshots, devices, k, originals)
  }

  ghost predicate AreFoundSoFar(answers: Answers, snapshots: seq<Snapshot>, devices: seq<DeviceRange>, k: nat,
                                originals: seq<Original>)
  {
    |originals| <= |devices|
    && forall i | 0 <= i < |originals| :: IsFound(snapshots, devices[i], answers(k + i), originals[i])
  }

  lemma OneFoundMore(answers: Answers, snapshots: seq<Snapshot>, devices: seq<DeviceRange>, k: nat,
                     originals: seq<Original>, o: Original)
    requires AreFoundSoFar(answers, snapshots, devices, k, originals) && |originals| < |devices|
    requires IsFound(snapshots, devices[|originals|], answers(k + |originals|), o)
    ensures AreFoundSoFar(answers, snapshots, devices, k, originals + [o])
  {
    hide IsFound;
  }

  lemma FoundAreUnique(answers: Answers, snapshots: seq<Snapshot>, devices: seq<DeviceRange>, k: nat,
                       a: seq<Original>, b: seq<Original>)
    requires AreFound(answers, snapshots, devices, k, a) && AreFound(answers, snapshots, devices, k, b)
    ensures a == b
  {
    forall i | 0 <= i < |devices|
      ensures a[i] == b[i]
    {
      assert IsFound(snapshots, devices[i], answers(k + i), a[i]);
      assert IsFound(snapshots, devices[i], answers(k + i), b[i]);
    }
  }

  lemma FoundArePresent(answers: Answers, snapshots: seq<Snapshot>, devices: seq<DeviceRange>, k: nat,
                        found: seq<Original>)
    requires AreFound(answers, snapshots, devices, k, found)
    ensures AllPresent(answers, snapshots, devices, k)
  {
    forall i | 0 <= i < |devices|
      ensures Present(snapshots, devices[i], answers(k + i))
    {
      assert IsFound(snapshots, devices[i], answers(k + i), found[i]);
    }
  }

  // ----- opening the sessions -----

  predicate BeginConfirmed(a: Answer, o: Original) {
    Replied(a) && CommitConfirmed(a.status.value, o.status, o.status.volume)
  }

  /** The requests that open the first `n` sessions. */
  function Beginning(originals: seq<Original>, n: nat): (r: seq<Request>)
    requires n <= |originals|
    ensures |r| == n
  {
    if n == 0 then [] else Beginning(originals, n - 1) + [AskBegin(originals[n - 1].id)]
  }

  /** The first `n` sessions were opened by the requests from `k` on. */
  predicate AllBegun(answers: Answers, originals: seq<Original>, n: nat, k: nat)
    requires n <= |originals|
  {
    n == 0 || (AllBegun(answers, originals, n - 1, k) && BeginConfirmed(answers(k + n - 1), originals[n - 1]))
  }

  lemma {:induction false} AllBegunAt(answers: Answers, originals: seq<Original>, n: nat, k: nat, i: nat)
    requires i < n <= |originals| && AllBegun(answers, originals, n, k)
    ensures BeginConfirmed(answers(k + i), originals[i])
  {
    if i < n - 1 {
      AllBegunAt(answers, originals, n - 1, k, i);
    }
  }

  // ----- curves -----

  /** The level that the block at `k` measures, if it does. */
  ghost function LevelAt(t: Trial, k: nat): Option<real> {
    if Undisturbed(t.answers, k, t.ambient) && Clear(t.answers(k + 2).heard.value)
    then t.level(t.answers(k + 2).heard.value.level, t.answers(k + 5).heard.value.level)
    else None
  }

  lemma LevelIsMeasured(t: Trial, k: nat)
    ensures forall x :: LevelAt(t, k) == Some(x) <==> Measured(t, k, x)
  {
  }

  /** The requests of a curve: a step and its block for every index. */
  function CurveLength(lo: nat, hi: nat): nat
    requires lo <= hi
  {
    7 * (hi - lo)
  }

  /** The step at index `index` of a curve whose first request is `k`. */
  ghost predicate StepTaken(t: Trial, o: Original, lo: nat, index: u16, k: nat)
    requires lo <= index
  {
    && StepConfirmed(t.answers, o, index, k + CurveLength(lo, index))
    && Undisturbed(t.answers, k + CurveLength(lo, index) + 1, t.ambient)
  }

  function StepRequests(id: nat, index: u16): (r: seq<Request>)
    ensures |r| == 7
  {
    [AskVolume(id, index)] + Block(id)
  }

  function CurveRequests(o: Original, lo: nat, hi: nat): (r: seq<Request>)
    requires lo <= hi <= 0x1_0000
    ensures |r| == CurveLength(lo, hi)
    decreases hi
  {
    if lo == hi then [] else CurveRequests(o, lo, hi - 1) + StepRequests(o.id, hi - 1)
  }

  /** Every step of a curve from `lo` to below `hi` is confirmed and measured undisturbed. */
  ghost predicate StepsTaken(t: Trial, o: Original, lo: nat, hi: nat, k: nat)
    requires lo <= hi <= 0x1_0000
    decreases hi
  {
    lo == hi || (StepsTaken(t, o, lo, hi - 1, k) && StepTaken(t, o, lo, hi - 1, k))
  }

  lemma {:induction false} StepsTakenExactly(t: Trial, o: Original, lo: nat, hi: nat, k: nat)
    requires lo <= hi <= 0x1_0000
    ensures StepsTaken(t, o, lo, hi, k) <==> forall index: u16 | lo <= index < hi :: StepTaken(t, o, lo, index, k)
    decreases hi
  {
    if lo < hi {
      StepsTakenExactly(t, o, lo, hi - 1, k);
      assert StepTaken(t, o, lo, hi - 1, k) || !StepTaken(t, o, lo, hi - 1, k);
    }
  }

  lemma {:induction false} FewerStepsTaken(t: Trial, o: Original, lo: nat, mid: nat, hi: nat, k: nat)
    requires lo <= mid <= hi <= 0x1_0000 && StepsTaken(t, o, lo, hi, k)
    ensures StepsTaken(t, o, lo, mid, k)
    decreases hi
  {
    if mid < hi {
      FewerStepsTaken(t, o, lo, mid, hi - 1, k);
    }
  }

  ghost function CurveOf(t: Trial, lo: nat, hi: nat, k: nat): seq<Point>
    requires lo <= hi <= 0x1_0000
    decreases hi
  {
    if lo == hi then [] else
    AddPoint(CurveOf(t, lo, hi - 1, k),
             match LevelAt(t, k + CurveLength(lo, hi - 1) + 1) case None => None case Some(x) => Some(Point(hi - 1, x)))
  }

  /** The requests of the first `n` curves. */
  function CurvesRequests(originals: seq<Original>, n: nat): (r: seq<Request>)
    requires n <= |originals|
    ensures |r| == CurvesLength(originals, n)
  {
    if n == 0 then [] else
    var o := originals[n - 1];
    CurvesRequests(originals, n - 1) + CurveRequests(o, CurveStart(o), CurveEnd(o))
  }

  function CurvesLength(originals: seq<Original>, n: nat): nat
    requires n <= |originals|
  {
    if n == 0 then 0 else
    var o := originals[n - 1];
    CurvesLength(originals, n - 1) + CurveLength(CurveStart(o), CurveEnd(o))
  }

  /** Every step of phone `i`'s curve is taken, after the curves before it. */
  ghost predicate CurveTaken(t: Trial, originals: seq<Original>, i: nat, k: nat)
    requires i < |originals|
  {
    StepsTaken(t, originals[i], CurveStart(originals[i]), CurveEnd(originals[i]), k + CurvesLength(originals, i))
  }

  ghost predicate CurvesTaken(t: Trial, originals: seq<Original>, n: nat, k: nat)
    requires n <= |originals|
  {
    n == 0 || (CurvesTaken(t, originals, n - 1, k) && CurveTaken(t, originals, n - 1, k))
  }

  lemma {:induction false} FewerCurvesTaken(t: Trial, originals: seq<Original>, m: nat, n: nat, k: nat)
    requires m <= n <= |originals| && CurvesTaken(t, originals, n, k)
    ensures CurvesTaken(t, originals, m, k)
    decreases n
  {
    hide CurveTaken;
    if m < n {
      FewerCurvesTaken(t, originals, m, n - 1, k);
    }
  }

  ghost function CurvesOf(t: Trial, originals: seq<Original>, n: nat, k: nat): (r: seq<seq<Point>>)
    requires n <= |originals|
    ensures |r| == n
  {
    if n == 0 then [] else
    var o := originals[n - 1];
    CurvesOf(t, originals, n - 1, k) + [CurveOf(t, CurveStart(o), CurveEnd(o), k + CurvesLength(originals, n - 1))]
  }

  // ----- mappings -----

  /** The follower's best point, if it is within 2 dB. */
  ghost function NearBest(points: seq<Point>, target: Point): Option<Point> {
    if b :| IsBest(points, target.level, b) && Distance(b.level, target.level) <= 2.0 then Some(b) else None
  }

  lemma NearBestIsBest(points: seq<Point>, target: Point)
    ensures var best := NearBest(points, target);
            match best
            case Some(b) => IsBest(points, target.level, b) && Distance(b.level, target.level) <= 2.0
            case None => forall b | IsBest(points, target.level, b) :: Distance(b.level, target.level) > 2.0
  {
  }

  lemma NearBestIs(points: seq<Point>, target: Point, best: Option<Point>)
    requires best.None? ==> points == []
    requires best.Some? ==> IsBest(points, target.level, best.value)
    ensures NearBest(points, target)
         == if best.Some? && Distance(best.value.level, target.level) <= 2.0 then best else None
  {
    NearBestIsBest(points, target);
    if NearBest(points, target).Some? {
      BestIsUnique(points, target.level, best.value, NearBest(points, target).value);
    }
  }

  function ReplayRequests(master: Original, follower: Original, m: u16, f: u16): (r: seq<Request>)
    ensures |r| == 14
  {
    StepRequests(master.id, m) + StepRequests(follower.id, f)
  }

  ghost function PairRequests(master: Original, follower: Original, target: Point, points: seq<Point>): seq<Request> {
    match NearBest(points, target)
    case None => []
    case Some(best) => ReplayRequests(master, follower, target.index, best.index)
  }

  /** The requests of the comparisons for the first `n` levels. */
  ghost function PairsRequests(master: Original, follower: Original, targets: seq<Point>, points: seq<Point>, n: nat)
    : (r: seq<Request>)
    requires n <= |targets|
    ensures |r| == PairsLength(targets, points, n)
  {
    if n == 0 then [] else
    PairsRequests(master, follower, targets, points, n - 1)
    + PairRequests(master, follower, targets[n - 1], points)
  }

  ghost predicate PairAgrees(t: Trial, k: nat) {
    && LevelAt(t, k + 1).Some? && LevelAt(t, k + 8).Some?
    && Distance(LevelAt(t, k + 8).value, LevelAt(t, k + 1).value) <= 2.0
  }

  /** The entry for one level of the master, when its comparison, if any, begins at `k`. */
  ghost function EntryOf(t: Trial, target: Point, points: seq<Point>, k: nat): Option<u16> {
    match NearBest(points, target)
    case None => None
    case Some(best) => if PairAgrees(t, k) then Some(best.index) else None
  }

  ghost function PairsLength(targets: seq<Point>, points: seq<Point>, n: nat): nat
    requires n <= |targets|
  {
    if n == 0 then 0 else
    PairsLength(targets, points, n - 1) + if NearBest(points, targets[n - 1]).Some? then 14 else 0
  }

  /** The comparison for level `j`, if there is one, can be measured and the master does not drift. */
  ghost predicate PairReplayed(t: Trial, targets: seq<Point>, points: seq<Point>, j: nat, k: nat)
    requires j < |targets|
  {
    NearBest(points, targets[j]).Some? ==> Replayable(t, targets[j], k + PairsLength(targets, points, j))
  }

  ghost predicate PairsReplayed(t: Trial, targets: seq<Point>, points: seq<Point>, n: nat, k: nat)
    requires n <= |targets|
  {
    n == 0 || (PairsReplayed(t, targets, points, n - 1, k) && PairReplayed(t, targets, points, n - 1, k))
  }

  lemma {:induction false} FewerPairsReplayed(t: Trial, targets: seq<Point>, points: seq<Point>, m: nat, n: nat,
                                              k: nat)
    requires m <= n <= |targets| && PairsReplayed(t, targets, points, n, k)
    ensures PairsReplayed(t, targets, points, m, k)
    decreases n
  {
    if m < n {
      FewerPairsReplayed(t, targets, points, m, n - 1, k);
    }
  }

  ghost function MappingOf(t: Trial, bothZero: bool, targets: seq<Point>, points: seq<Point>, n: nat, k: nat)
    : map<u16, u16>
    requires n <= |targets|
  {
    if n == 0 then (if bothZero then map[0 := 0] else map[]) else
    AddEntry(MappingOf(t, bothZero, targets, points, n - 1, k), targets[n - 1].index,
             EntryOf(t, targets[n - 1], points, k + PairsLength(targets, points, n - 1)))
  }

  predicate BothZero(p: Profile, f: Follower) {
    p.master.minimum == 0 && f.device.minimum == 0
  }

  /** The requests of the comparisons with the first `n` followers. */
  ghost function FollowersRequests(originals: seq<Original>, curves: seq<seq<Point>>, n: nat): (r: seq<Request>)
    requires n < |curves| == |originals|
    ensures |r| == FollowersLength(curves, n)
  {
    if n == 0 then [] else
    FollowersRequests(originals, curves, n - 1)
    + PairsRequests(originals[0], originals[n], curves[0], curves[n], |curves[0]|)
  }

  ghost function FollowersLength(curves: seq<seq<Point>>, n: nat): nat
    requires n < |curves|
  {
    if n == 0 then 0 else FollowersLength(curves, n - 1) + PairsLength(curves[0], curves[n], |curves[0]|)
  }

  ghost predicate FollowerMapped(t: Trial, curves: seq<seq<Point>>, i: nat, k: nat)
    requires i + 1 < |curves|
  {
    PairsReplayed(t, curves[0], curves[i + 1], |curves[0]|, k + FollowersLength(curves, i))
  }

  ghost predicate FollowersMapped(t: Trial, curves: seq<seq<Point>>, n: nat, k: nat)
    requires n < |curves|
  {
    n == 0 || (FollowersMapped(t, curves, n - 1, k) && FollowerMapped(t, curves, n - 1, k))
  }

  lemma {:induction false} FewerFollowersMapped(t: Trial, curves: seq<seq<Point>>, m: nat, n: nat, k: nat)
    requires m <= n < |curves| && FollowersMapped(t, curves, n, k)
    ensures FollowersMapped(t, curves, m, k)
    decreases n
  {
    if m < n {
      FewerFollowersMapped(t, curves, m, n - 1, k);
    }
  }

  ghost function FollowersOf(t: Trial, p: Profile, curves: seq<seq<Point>>, n: nat, k: nat): (r: seq<Follower>)
    requires n <= |p.followers| < |curves|
    ensures |r| == n
  {
    if n == 0 then [] else
    var f := p.followers[n - 1];
    FollowersOf(t, p, curves, n - 1, k)
    + [f.(mapping := MappingOf(t, BothZero(p, f), curves[0], curves[n], |curves[0]|,
                               k + FollowersLength(curves, n - 1)))]
  }

  // ----- the run -----

  /** Some follower answers more than the master's minimum. */
  predicate Useful(p: Profile) {
    exists i | 0 <= i < |p.followers| :: exists m <- p.followers[i].mapping :: m > p.master.minimum
  }

  /** The room before the first tone. */
  predicate RoomQuiet(a: Answer) {
    a.heard.Some? && a.heard.value.spread <= 3.0 && !a.heard.value.tone
  }

  type Level = (real, real) -> Option<real>

  /** The trial of a calibration that listens to the room with request `k`. */
  function TrialAfter(answers: Answers, level: Level, k: nat): Trial {
    Trial(answers, level, match answers(k).heard case None => 0.0 case Some(m) => m.level, k + 1)
  }

  /** The curves that the answers since the room was heard show. */
  ghost function Curves(t: Trial, originals: seq<Original>): (r: seq<seq<Point>>)
    ensures |r| == |originals|
  {
    CurvesOf(t, originals, |originals|, t.since)
  }

  /** The number of requests when all curves are taken. */
  function CurvesEnd(t: Trial, originals: seq<Original>): nat {
    t.since + CurvesLength(originals, |originals|)
  }

  /** The profile with the mappings that the answers since the room was heard determine. */
  ghost function ChartOf(t: Trial, p: Profile, originals: seq<Original>): Profile
    requires |originals| == |p.followers| + 1
  {
    p.(followers := FollowersOf(t, p, Curves(t, originals), |p.followers|, CurvesEnd(t, originals)))
  }

  /** What charting asks after the room was heard. */
  ghost function ChartRequests(t: Trial, p: Profile, originals: seq<Original>): (r: seq<Request>)
    requires |originals| == |p.followers| + 1
    ensures t.since + |r| == ChartEnd(t, p, originals)
  {
    CurvesRequests(originals, |originals|) + FollowersRequests(originals, Curves(t, originals), |p.followers|)
  }

  /** The number of requests once it is charted. */
  ghost function ChartEnd(t: Trial, p: Profile, originals: seq<Original>): nat
    requires |originals| == |p.followers| + 1
  {
    CurvesEnd(t, originals) + FollowersLength(Curves(t, originals), |p.followers|)
  }

  /** What charting must find once the room was heard: every curve taken and the master's not
      empty, every comparison replayed, and a valid and useful profile. */
  ghost predicate Charted(t: Trial, p: Profile, originals: seq<Original>)
    requires |originals| == |p.followers| + 1
  {
    && CurvesTaken(t, originals, |originals|, t.since) && Curves(t, originals)[0] != []
    && FollowersMapped(t, Curves(t, originals), |p.followers|, CurvesEnd(t, originals))
    && ValidProfile(ChartOf(t, p, originals)) && Useful(ChartOf(t, p, originals))
  }

  /** The same, listening to the room with request `k`. */
  ghost predicate ChartSucceeds(answers: Answers, level: Level, p: Profile, originals: seq<Original>, k: nat)
    requires |originals| == |p.followers| + 1
  {
    RoomQuiet(answers(k)) && Charted(TrialAfter(answers, level, k), p, originals)
  }

  ghost predicate AllRestored(answers: Answers, originals: seq<Original>, k: nat) {
    forall i | 0 <= i < |originals| :: RestoredAt(answers, originals[i], k + 2 * i)
  }

  /** What opening the sessions with request `k` on must find: all opened and a charted profile. */
  ghost predicate SessionsSucceed(answers: Answers, level: Level, p: Profile, originals: seq<Original>, k: nat)
    requires |originals| == |p.followers| + 1
  {
    && AllBegun(answers, originals, |originals|, k) && p.followers != []
    && ChartSucceeds(answers, level, p, originals, k + |originals|)
  }

  /** And restoring them. */
  ghost predicate PreparedSucceeds(answers: Answers, level: Level, p: Profile, originals: seq<Original>, k: nat)
    requires |originals| == |p.followers| + 1
  {
    && SessionsSucceed(answers, level, p, originals, k)
    && AllRestored(answers, originals, ChartEnd(TrialAfter(answers, level, k + |originals|), p, originals) + 1)
  }

  /** What a run whose first request is `k` must find to return a profile: a valid one, each of
      its phones in one snapshot and as it should be, and successful sessions. */
  ghost predicate RunSucceeds(answers: Answers, level: Level, p: Profile, snapshots: seq<Snapshot>, reference: nat,
                              k: nat, originals: seq<Original>)
  {
    && ValidProfile(p) && |originals| == |p.followers| + 1
    && AreFound(answers, snapshots, Devices(p), k, originals) && originals[0].id == reference
    && PreparedSucceeds(answers, level, p, originals, k + |originals|)
  }

  ghost predicate RunCanSucceed(answers: Answers, level: Level, p: Profile, snapshots: seq<Snapshot>,
                                reference: nat, k: nat)
  {
    exists found :: RunSucceeds(answers, level, p, snapshots, reference, k, found)
  }

  function Statuses(originals: seq<Original>, n: nat): (r: seq<Request>)
    requires n <= |originals|
    ensures |r| == n
  {
    if n == 0 then [] else Statuses(originals, n - 1) + [AskStatus(originals[n - 1].id)]
  }

  /** Everything asked while the sessions are opened and the group is charted. */
  ghost function SessionsRequests(t: Trial, p: Profile, originals: seq<Original>): seq<Request>
    requires |originals| == |p.followers| + 1
  {
    Beginning(originals, |originals|) + [Listen] + ChartRequests(t, p, originals)
  }

  /** Everything a successful run asks. */
  ghost function RunRequests(t: Trial, p: Profile, originals: seq<Original>): seq<Request>
    requires |originals| == |p.followers| + 1
  {
    Statuses(originals, |originals|) + SessionsRequests(t, p, originals) + [QuietAll] + Restoring(originals)
  }
}
