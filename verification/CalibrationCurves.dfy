/** What a calibration's log shows about whole curves and whole mappings
    (windows-server/src/application/calibration.rs:162-252). */
module CalibrationCurves {
  import opened Numbers
  import opened ControlMessages
  import opened VolumeProfiles
  import opened CalibrationLog

  // ----- curves -----

  /** The phone confirmed the step to the request at `k`. */
  predicate StepConfirmed(answers: Answers, o: Original, index: u16, k: nat) {
    Replied(answers(k)) && CommitConfirmed(answers(k).status.value, o.status, index)
  }

  /** The step was set at request `k` and measured, and is a point of the curve exactly
      with the level it showed, if it showed one. */
  ghost predicate StepSeenAt(log: seq<Request>, t: Trial, o: Original, points: seq<Point>, index: u16, k: nat) {
    && t.since <= k && Has(log, k, [AskVolume(o.id, index)] + Block(o.id))
    && StepConfirmed(t.answers, o, index, k) && Undisturbed(t.answers, k + 1, t.ambient)
    && forall x :: Point(index, x) in points <==> Measured(t, k + 1, x)
  }

  ghost predicate StepSeen(log: seq<Request>, t: Trial, o: Original, points: seq<Point>, index: u16) {
    exists k: nat :: StepSeenAt(log, t, o, points, index, k)
  }

  predicate Ascends(points: seq<Point>) {
    forall i, j | 0 <= i < j < |points| :: points[i].index < points[j].index
  }

  /** The phone's steps from the lowest audible one to its highest. */
  function CurveStart(o: Original): nat { Max(o.status.minimum, 1) }

  function CurveEnd(o: Original): nat { Max(CurveStart(o), o.status.maximum + 1) }

  /** The points with indices from the phone's lowest audible one to below `next`, for every
      such step whose level could be told. */
  ghost predicate IsCurveTo(log: seq<Request>, t: Trial, o: Original, points: seq<Point>, next: nat) {
    && Ascends(points)
    && (forall p <- points :: CurveStart(o) <= p.index < next)
    && forall index: u16 | CurveStart(o) <= index < next :: StepSeen(log, t, o, points, index)
  }

  ghost predicate IsCurve(log: seq<Request>, t: Trial, o: Original, points: seq<Point>) {
    IsCurveTo(log, t, o, points, CurveEnd(o))
  }

  lemma StepSeenGrows(log: seq<Request>, later: seq<Request>, t: Trial, o: Original, points: seq<Point>, index: u16)
    requires StepSeen(log, t, o, points, index) && log <= later
    ensures StepSeen(later, t, o, points, index)
  {
    var k: nat :| StepSeenAt(log, t, o, points, index, k);
    assert later == log + later[|log|..];
    HasGrows(log, later[|log|..], k, [AskVolume(o.id, index)] + Block(o.id));
    assert StepSeenAt(later, t, o, points, index, k);
  }

  lemma CurveGrows(log: seq<Request>, later: seq<Request>, t: Trial, o: Original, points: seq<Point>, next: nat)
    requires IsCurveTo(log, t, o, points, next) && log <= later
    ensures IsCurveTo(later, t, o, points, next)
  {
    forall index: u16 | CurveStart(o) <= index < next
      ensures StepSeen(later, t, o, points, index)
    {
      StepSeenGrows(log, later, t, o, points, index);
    }
  }

  function AddPoint(points: seq<Point>, p: Option<Point>): seq<Point> {
    if p.Some? then points + [p.value] else points
  }

  lemma OtherStepSeen(log: seq<Request>, t: Trial, o: Original, points: seq<Point>, p: Option<Point>, index: u16)
    requires StepSeen(log, t, o, points, index) && (p.Some? ==> p.value.index != index)
    ensures StepSeen(log, t, o, AddPoint(points, p), index)
  {
    var k: nat :| StepSeenAt(log, t, o, points, index, k);
    assert forall x :: Point(index, x) in AddPoint(points, p) <==> Point(index, x) in points;
    assert StepSeenAt(log, t, o, AddPoint(points, p), index, k);
  }

  lemma ThisStepSeen(before: seq<Request>, log: seq<Request>, t: Trial, o: Original, points: seq<Point>,
                     p: Option<Point>, index: u16)
    requires t.since <= |before| && log == before + ([AskVolume(o.id, index)] + Block(o.id))
    requires StepConfirmed(t.answers, o, index, |before|) && Undisturbed(t.answers, |before| + 1, t.ambient)
    requires forall x :: p == Some(Point(index, x)) <==> Measured(t, |before| + 1, x)
    requires forall q <- points :: q.index != index
    ensures StepSeen(log, t, o, AddPoint(points, p), index)
  {
    assert forall x :: Point(index, x) !in points;
    assert StepSeenAt(log, t, o, AddPoint(points, p), index, |before|);
  }

  lemma CurveFurther(before: seq<Request>, log: seq<Request>, t: Trial, o: Original, points: seq<Point>,
                     p: Option<Point>, next: u16)
    requires IsCurveTo(before, t, o, points, next) && CurveStart(o) <= next
    requires t.since <= |before| && log == before + ([AskVolume(o.id, next)] + Block(o.id))
    requires StepConfirmed(t.answers, o, next, |before|) && Undisturbed(t.answers, |before| + 1, t.ambient)
    requires forall x :: p == Some(Point(next, x)) <==> Measured(t, |before| + 1, x)
    requires p.Some? ==> p.value.index == next
    ensures IsCurveTo(log, t, o, AddPoint(points, p), next + 1)
  {
    CurveGrows(before, log, t, o, points, next);
    ThisStepSeen(before, log, t, o, points, p, next);
    forall index: u16 | CurveStart(o) <= index < next
      ensures StepSeen(log, t, o, AddPoint(points, p), index)
    {
      OtherStepSeen(log, t, o, points, p, index);
    }
    AscendsFurther(points, p, next);
  }

  lemma AscendsFurther(points: seq<Point>, p: Option<Point>, next: u16)
    requires Ascends(points) && (forall q <- points :: q.index < next) && (p.Some? ==> p.value.index == next)
    ensures Ascends(AddPoint(points, p)) && forall q <- AddPoint(points, p) :: q.index <= next
  {
    assert forall i | 0 <= i < |points| :: points[i] in points;
  }

  /** Every point of a curve was sampled. */
  lemma CurveIsSampled(log: seq<Request>, t: Trial, o: Original, points: seq<Point>, p: Point)
    requires IsCurve(log, t, o, points) && p in points
    ensures Sampled(log, t, o, p)
  {
    assert StepSeen(log, t, o, points, p.index);
    var k: nat :| StepSeenAt(log, t, o, points, p.index, k);
    assert p == Point(p.index, p.level);
    assert SampledAt(log, t, o, p, k);
  }

  // ----- comparisons -----

  /** The two replays beginning at `k` can both be measured, and the master has not drifted. */
  ghost predicate Replays(t: Trial, target: Point, k: nat, repeated: real, verified: real) {
    && Replied(t.answers(k)) && Measured(t, k + 1, repeated) && Distance(repeated, target.level) <= 2.0
    && Replied(t.answers(k + 7)) && Measured(t, k + 8, verified)
  }

  ghost predicate Replayable(t: Trial, target: Point, k: nat) {
    exists repeated, verified :: Replays(t, target, k, repeated, verified)
  }

  ghost predicate IsMeasurement(t: Trial, k: nat, v: Result<real>) {
    match v
    case Success(x) => Measured(t, k, x)
    case Failure => forall x :: !Measured(t, k, x)
  }

  /** What the replay whose request is `k` must come to: the level it measures, or failure
      if there is none. */
  ghost predicate IsReplay(t: Trial, k: nat, v: Result<real>) {
    match v
    case Success(x) => Replied(t.answers(k)) && Measured(t, k + 1, x)
    case Failure => !Replied(t.answers(k)) || IsMeasurement(t, k + 1, Failure)
  }

  lemma FirstNotReplayable(t: Trial, target: Point, k: nat, first: Result<real>)
    requires IsReplay(t, k, first) && (first.Failure? || Distance(first.value, target.level) > 2.0)
    ensures !Replayable(t, target, k)
  {
  }

  lemma SecondNotReplayable(t: Trial, target: Point, k: nat)
    requires IsReplay(t, k + 7, Failure)
    ensures !Replayable(t, target, k)
  {
  }

  /** The two were replayed from `k` on, and `agree` tells whether they were within 2 dB. */
  ghost predicate Judged(log: seq<Request>, t: Trial, master: Original, follower: Original, m: Point, f: u16,
                         k: nat, agree: bool)
  {
    exists repeated, verified :: JudgedAt(log, t, master, follower, m, f, k, agree, repeated, verified)
  }

  ghost predicate JudgedAt(log: seq<Request>, t: Trial, master: Original, follower: Original, m: Point, f: u16,
                           k: nat, agree: bool, repeated: real, verified: real)
  {
    && ReplayedAt(log, t, master, follower, m, f, k, repeated, verified)
    && (agree <==> Distance(verified, repeated) <= 2.0)
  }

  lemma JudgedBy(before: seq<Request>, middle: seq<Request>, log: seq<Request>, t: Trial, master: Original,
                 follower: Original, m: Point, f: u16, repeated: real, verified: real)
    requires t.since <= |before| && middle == before + ([AskVolume(master.id, m.index)] + Block(master.id))
    requires log == middle + ([AskVolume(follower.id, f)] + Block(follower.id))
    requires Replays(t, m, |before|, repeated, verified)
    ensures Replayable(t, m, |before|)
    ensures Judged(log, t, master, follower, m, f, |before|, Distance(verified, repeated) <= 2.0)
  {
    var asked := [AskVolume(master.id, m.index)] + Block(master.id)
                 + ([AskVolume(follower.id, f)] + Block(follower.id));
    assert log[|before|..] == asked && |asked| == 14;
    assert JudgedAt(log, t, master, follower, m, f, |before|, Distance(verified, repeated) <= 2.0, repeated, verified);
  }

  lemma DecidedBy(log: seq<Request>, t: Trial, master: Original, follower: Original, target: Point,
                  points: seq<Point>, best: Point, k: nat, agree: bool)
    requires IsBest(points, target.level, best) && Distance(best.level, target.level) <= 2.0
    requires Judged(log, t, master, follower, target, best.index, k, agree)
    ensures Decided(log, t, master, follower, target, points, if agree then Some(best.index) else None)
  {
    var repeated, verified :| JudgedAt(log, t, master, follower, target, best.index, k, agree, repeated, verified);
    assert DecidedAt(log, t, master, follower, target, points, if agree then Some(best.index) else None,
                     best, k, repeated, verified);
  }

  // ----- mappings -----

  function Lookup(mapping: map<u16, u16>, m: u16): Option<u16> {
    if m in mapping then Some(mapping[m]) else None
  }

  function AddEntry(mapping: map<u16, u16>, m: u16, f: Option<u16>): map<u16, u16> {
    if f.Some? then mapping[m := f.value] else mapping
  }

  ghost predicate IsTarget(targets: seq<Point>, m: u16) {
    exists p <- targets :: p.index == m
  }

  /** Only levels of the master are mapped, and 0 to 0 where both ranges begin there. */
  ghost predicate OnlyTargets(bothZero: bool, targets: seq<Point>, mapping: map<u16, u16>) {
    && (forall m <- mapping :: (bothZero && m == 0) || IsTarget(targets, m))
    && (bothZero ==> Lookup(mapping, 0) == Some(0))
  }

  /** Every level of the master is mapped as its best point and the comparison decided. */
  ghost predicate AllDecided(log: seq<Request>, t: Trial, master: Original, follower: Original,
                             targets: seq<Point>, points: seq<Point>, mapping: map<u16, u16>)
  {
    forall target <- targets ::
      Decided(log, t, master, follower, target, points, Lookup(mapping, target.index))
  }

  /** The mapping that the two curves and their comparisons determine. */
  ghost predicate IsMapping(log: seq<Request>, t: Trial, master: Original, follower: Original, bothZero: bool,
                            targets: seq<Point>, points: seq<Point>, mapping: map<u16, u16>)
  {
    OnlyTargets(bothZero, targets, mapping) && AllDecided(log, t, master, follower, targets, points, mapping)
  }

  lemma MappingGrows(log: seq<Request>, later: seq<Request>, t: Trial, master: Original, follower: Original,
                     bothZero: bool, targets: seq<Point>, points: seq<Point>, mapping: map<u16, u16>)
    requires IsMapping(log, t, master, follower, bothZero, targets, points, mapping) && log <= later
    ensures IsMapping(later, t, master, follower, bothZero, targets, points, mapping)
  {
    assert later == log + later[|log|..];
    forall target | target in targets
      ensures Decided(later, t, master, follower, target, points, Lookup(mapping, target.index))
    {
      DecidedGrows(log, later[|log|..], t, master, follower, target, points, Lookup(mapping, target.index));
    }
  }

  /** How an index comes into a mapping: silence is silence where both ranges begin at 0,
      and anything else was measured. */
  ghost predicate Earned(log: seq<Request>, t: Trial, master: Original, follower: Original, bothZero: bool,
                         m: u16, f: u16)
  {
    (bothZero && m == 0 && f == 0) || Proved(log, t, master, follower, m, f)
  }

  lemma DecisionIsProved(log: seq<Request>, t: Trial, master: Original, follower: Original,
                         targets: seq<Point>, points: seq<Point>, target: Point, f: u16)
    requires IsCurve(log, t, master, targets) && IsCurve(log, t, follower, points) && target in targets
    requires Decided(log, t, master, follower, target, points, Some(f))
    ensures Proved(log, t, master, follower, target.index, f)
  {
    var best, k: nat, repeated, verified :|
      DecidedAt(log, t, master, follower, target, points, Some(f), best, k, repeated, verified);
    var j: nat :| IsBestAt(points, target.level, best, j);
    CurveIsSampled(log, t, master, targets, target);
    CurveIsSampled(log, t, follower, points, best);
    assert ComparedAt(log, t, master, follower, target, best.index, k, repeated, verified);
    assert ProvedWith(log, t, master, follower, target, best);
  }

  /** Every entry of a mapping was earned: its two levels were sampled within 2 dB of each
      other and agreed when both were played once more. */
  lemma MappingIsEarned(log: seq<Request>, t: Trial, master: Original, follower: Original, bothZero: bool,
                        targets: seq<Point>, points: seq<Point>, mapping: map<u16, u16>, m: u16)
    requires IsCurve(log, t, master, targets) && IsCurve(log, t, follower, points)
    requires IsMapping(log, t, master, follower, bothZero, targets, points, mapping) && m in mapping
    ensures Earned(log, t, master, follower, bothZero, m, mapping[m])
  {
    if !(bothZero && m == 0) {
      assert IsTarget(targets, m);
      var target :| target in targets && target.index == m;
      assert Lookup(mapping, target.index) == Some(mapping[m]);
      DecisionIsProved(log, t, master, follower, targets, points, target, mapping[m]);
    }
  }
}
