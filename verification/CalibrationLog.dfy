/** The exchange between the server's calibration and the phones, and what it proves.

    Request `k` of a run gets answer `k`. Levels are given as reals. A log is evidence: the
    predicates here say what a stretch of it shows about a level, a pair of levels or a
    restored phone (windows-server/src/application/calibration.rs). */
module CalibrationLog {
  import opened Numbers
  import opened ControlMessages
  import opened VolumeProfiles

  datatype Request =
    | AskStatus(id: nat)
    | AskBegin(id: nat)
    | AskCancel(id: nat)
    | AskVolume(id: nat, index: u16)
    | AskTone(id: nat, enabled: bool)
    | QuietAll
    | Listen

  datatype ToneReply = ToneReply(playing: bool, failed: bool)

  datatype Measurement = Measurement(level: real, spread: real, tone: bool)

  /** What comes of a request: whether it could be queued; the status or tone reply, unless
      it timed out, the phone left or the run was cancelled; what the microphone heard; and
      news that the tone stopped meanwhile. */
  datatype Answer = Answer(
    queued: bool,
    status: Option<DeviceStatus>,
    tone: Option<ToneReply>,
    heard: Option<Measurement>,
    news: Option<ToneReply>)

  type Answers = nat -> Answer

  /** A phone and its status before the calibration. */
  datatype Original = Original(id: nat, status: DeviceStatus)

  // ----- single exchanges -----

  predicate Replied(a: Answer) {
    a.queued && a.status.Some? && !a.status.value.failed
  }

  predicate Switched(a: Answer, enabled: bool) {
    a.queued && a.tone.Some? && !a.tone.value.failed && a.tone.value.playing == enabled
  }

  /** The phone is the same device, on its speaker, and at `index`. */
  predicate CommitConfirmed(actual: DeviceStatus, original: DeviceStatus, index: u16) {
    && !actual.failed && !actual.fixed && actual.speaker
    && actual.deviceId == original.deviceId
    && actual.minimum == original.minimum && actual.maximum == original.maximum
    && actual.volume == index
  }

  function Distance(a: real, b: real): real {
    if a >= b then a - b else b - a
  }

  // ----- measurements -----

  /** The requests of one measurement. */
  function Block(id: nat): seq<Request> {
    [AskStatus(id), AskTone(id, true), Listen, AskTone(id, false), AskStatus(id), Listen]
  }

  ghost predicate Has(log: seq<Request>, k: nat, requests: seq<Request>) {
    k + |requests| <= |log| && log[k..k + |requests|] == requests
  }

  /** The tone played from start to stop while the microphone heard it. */
  predicate PlayedThrough(answers: Answers, k: nat) {
    && Replied(answers(k)) && Usable(answers(k).status.value)
    && Switched(answers(k + 1), true)
    && answers(k + 2).heard.Some?
    && !(answers(k + 2).news.Some? && (!answers(k + 2).news.value.playing || answers(k + 2).news.value.failed))
    && Switched(answers(k + 3), false)
  }

  /** After it the phone is unchanged and the room as quiet as before the first tone. */
  predicate FellQuiet(answers: Answers, k: nat, volume: u16, background: real) {
    && Replied(answers(k)) && Usable(answers(k).status.value)
    && answers(k).status.value.volume == volume
    && answers(k + 1).heard.Some? && !answers(k + 1).heard.value.tone
    && answers(k + 1).heard.value.spread <= 3.0
    && Distance(answers(k + 1).heard.value.level, background) <= 3.0
  }

  /** The measurement whose block begins at `k` was undisturbed. */
  predicate Undisturbed(answers: Answers, k: nat, background: real) {
    && PlayedThrough(answers, k)
    && FellQuiet(answers, k + 4, answers(k).status.value.volume, background)
  }

  predicate Clear(m: Measurement) {
    m.tone && m.spread <= 3.0
  }

  /** The run's answers, how a level follows from signal and background (None where they are
      too close), the background before the first tone, and the number of requests made when
      it was heard: evidence comes from later ones. */
  datatype Trial = Trial(answers: Answers, level: (real, real) -> Option<real>, ambient: real, since: nat)

  /** The level that the block at `k` measured. */
  ghost predicate Measured(t: Trial, k: nat, v: real) {
    && Undisturbed(t.answers, k, t.ambient) && Clear(t.answers(k + 2).heard.value)
    && t.level(t.answers(k + 2).heard.value.level, t.answers(k + 5).heard.value.level) == Some(v)
  }

  datatype Point = Point(index: u16, level: real)

  /** The phone was set to the index of `p`, confirmed it, and was measured at its level. */
  ghost predicate SampledAt(log: seq<Request>, t: Trial, o: Original, p: Point, k: nat) {
    && t.since <= k && Has(log, k, [AskVolume(o.id, p.index)] + Block(o.id))
    && Replied(t.answers(k)) && CommitConfirmed(t.answers(k).status.value, o.status, p.index)
    && Measured(t, k + 1, p.level)
  }

  ghost predicate Sampled(log: seq<Request>, t: Trial, o: Original, p: Point) {
    exists k: nat :: SampledAt(log, t, o, p, k)
  }

  /** The master was played again at `m`, and had not drifted, and then the follower at `f`. */
  ghost predicate ReplayedAt(log: seq<Request>, t: Trial, master: Original,
                             follower: Original, m: Point, f: u16, k: nat, repeated: real, verified: real)
  {
    && t.since <= k
    && Has(log, k, [AskVolume(master.id, m.index)] + Block(master.id)
                   + ([AskVolume(follower.id, f)] + Block(follower.id)))
    && Measured(t, k + 1, repeated) && Distance(repeated, m.level) <= 2.0
    && Measured(t, k + 8, verified)
  }

  /** They were less than 2 dB apart. */
  ghost predicate ComparedAt(log: seq<Request>, t: Trial, master: Original,
                             follower: Original, m: Point, f: u16, k: nat, repeated: real, verified: real)
  {
    ReplayedAt(log, t, master, follower, m, f, k, repeated, verified) && Distance(verified, repeated) <= 2.0
  }

  ghost predicate Compared(log: seq<Request>, t: Trial, master: Original,
                           follower: Original, m: Point, f: u16)
  {
    exists k: nat, repeated, verified :: ComparedAt(log, t, master, follower, m, f, k, repeated, verified)
  }

  /** Master level `target` and follower level `best` were sampled within 2 dB of each other
      and compared once more. */
  ghost predicate ProvedWith(log: seq<Request>, t: Trial, master: Original, follower: Original,
                             target: Point, best: Point)
  {
    && Distance(best.level, target.level) <= 2.0
    && Sampled(log, t, master, target) && Sampled(log, t, follower, best)
    && Compared(log, t, master, follower, target, best.index)
  }

  /** `best` is the first of the points closest to the level. */
  ghost predicate IsBestAt(points: seq<Point>, level: real, best: Point, k: nat) {
    && k < |points| && best == points[k]
    && (forall j | 0 <= j < k :: Distance(points[j].level, level) > Distance(best.level, level))
    && forall j | k <= j < |points| :: Distance(points[j].level, level) >= Distance(best.level, level)
  }

  ghost predicate IsBest(points: seq<Point>, level: real, best: Point) {
    exists k: nat :: IsBestAt(points, level, best, k)
  }

  /** What decides whether the master's `target` is mapped, and to what: the follower's best
      point for it, if that is within 2 dB and agreed when both were played once more. */
  ghost predicate Decided(log: seq<Request>, t: Trial, master: Original, follower: Original,
                          target: Point, points: seq<Point>, f: Option<u16>)
  {
    if exists best :: IsBest(points, target.level, best) && Distance(best.level, target.level) <= 2.0
    then exists best, k: nat, repeated, verified ::
           DecidedAt(log, t, master, follower, target, points, f, best, k, repeated, verified)
    else f.None?
  }

  ghost predicate DecidedAt(log: seq<Request>, t: Trial, master: Original, follower: Original,
                            target: Point, points: seq<Point>, f: Option<u16>,
                            best: Point, k: nat, repeated: real, verified: real)
  {
    && IsBest(points, target.level, best) && Distance(best.level, target.level) <= 2.0
    && ReplayedAt(log, t, master, follower, target, best.index, k, repeated, verified)
    && f == if Distance(verified, repeated) <= 2.0 then Some(best.index) else None
  }

  lemma DecidedGrows(log: seq<Request>, more: seq<Request>, t: Trial, master: Original, follower: Original,
                     target: Point, points: seq<Point>, f: Option<u16>)
    requires Decided(log, t, master, follower, target, points, f)
    ensures Decided(log + more, t, master, follower, target, points, f)
  {
    if exists best :: IsBest(points, target.level, best) && Distance(best.level, target.level) <= 2.0 {
      var best, k: nat, repeated, verified :|
        DecidedAt(log, t, master, follower, target, points, f, best, k, repeated, verified);
      ReplayedGrows(log, more, t, master, follower, target, best.index, k, repeated, verified);
      assert DecidedAt(log + more, t, master, follower, target, points, f, best, k, repeated, verified);
    }
  }

  lemma BestIsUnique(points: seq<Point>, level: real, a: Point, b: Point)
    requires IsBest(points, level, a) && IsBest(points, level, b)
    ensures a == b
  {
    var j: nat :| IsBestAt(points, level, a, j);
    var k: nat :| IsBestAt(points, level, b, k);
    assert j == k;
  }

  /** The evidence for mapping master index `m` to follower index `f`. */
  ghost predicate Proved(log: seq<Request>, t: Trial, master: Original, follower: Original, m: u16, f: u16) {
    exists target, best ::
      ProvedWith(log, t, master, follower, target, best) && target.index == m && best.index == f
  }

  lemma HasGrows(log: seq<Request>, more: seq<Request>, k: nat, requests: seq<Request>)
    requires Has(log, k, requests)
    ensures Has(log + more, k, requests)
  {
  }

  lemma ReplayedGrows(log: seq<Request>, more: seq<Request>, t: Trial, master: Original,
                      follower: Original, m: Point, f: u16, k: nat, repeated: real, verified: real)
    requires ReplayedAt(log, t, master, follower, m, f, k, repeated, verified)
    ensures ReplayedAt(log + more, t, master, follower, m, f, k, repeated, verified)
  {
    HasGrows(log, more, k, [AskVolume(master.id, m.index)] + Block(master.id)
                           + ([AskVolume(follower.id, f)] + Block(follower.id)));
  }

  // ----- sessions -----

  /** Neither begins nor ends a session. */
  predicate Harmless(requests: seq<Request>) {
    forall r <- requests :: !r.AskBegin? && !r.AskCancel?
  }

  /** What restoring the phones asks of them, each on every path. */
  function Restoring(begun: seq<Original>): seq<Request> {
    if begun == [] then [] else
    Restoring(begun[..|begun| - 1])
    + [AskTone(begun[|begun| - 1].id, false), AskCancel(begun[|begun| - 1].id)]
  }

  /** The phone stopped its tone and confirmed its original volume to the Cancel at `k + 1`. */
  predicate RestoredAt(answers: Answers, o: Original, k: nat) {
    && Switched(answers(k), false) && Replied(answers(k + 1))
    && CommitConfirmed(answers(k + 1).status.value, o.status, o.status.volume)
  }

  lemma {:induction false} RestoringAsksEach(begun: seq<Original>, i: nat)
    requires i < |begun|
    ensures |Restoring(begun)| == 2 * |begun|
    ensures Restoring(begun)[2 * i] == AskTone(begun[i].id, false)
    ensures Restoring(begun)[2 * i + 1] == AskCancel(begun[i].id)
  {
    var n := |begun| - 1;
    if n > 0 {
      RestoringAsksEach(begun[..n], if i < n then i else 0);
    }
  }

  lemma {:induction false} RestoringLength(begun: seq<Original>)
    ensures |Restoring(begun)| == 2 * |begun|
  {
    if begun != [] {
      RestoringLength(begun[..|begun| - 1]);
    }
  }

  /** The phones that did not confirm, when restoring `begun` begins at `k`. */
  function Unrestored(answers: Answers, begun: seq<Original>, k: nat): seq<Original> {
    if begun == [] then [] else
    var n := |begun| - 1;
    Unrestored(answers, begun[..n], k) + if RestoredAt(answers, begun[n], k + 2 * n) then [] else [begun[n]]
  }

  lemma {:induction false} NoneUnrestored(answers: Answers, begun: seq<Original>, k: nat)
    ensures Unrestored(answers, begun, k) == [] <==>
            forall i | 0 <= i < |begun| :: RestoredAt(answers, begun[i], k + 2 * i)
  {
    if begun != [] {
      var n := |begun| - 1;
      var rest := begun[..n];
      NoneUnrestored(answers, rest, k);
      assert forall i | 0 <= i < n :: rest[i] == begun[i];
      if RestoredAt(answers, begun[n], k + 2 * n) {
        assert Unrestored(answers, begun, k) == Unrestored(answers, rest, k);
      } else {
        assert begun[n] in Unrestored(answers, begun, k);
      }
    }
  }

  /** Every Begin that was queued since `start` went to a phone in `begun`. */
  ghost predicate Tracks(log: seq<Request>, answers: Answers, start: nat, begun: seq<Original>) {
    forall k | start <= k < |log| :: log[k].AskBegin? && answers(k).queued ==> exists o <- begun :: o.id == log[k].id
  }

  /** Every Begin that was queued since `start` is followed by a Cancel to the same phone. */
  ghost predicate AllCancelled(log: seq<Request>, answers: Answers, start: nat) {
    forall k | start <= k < |log| :: log[k].AskBegin? && answers(k).queued ==>
      exists j | k < j < |log| :: log[j] == AskCancel(log[k].id)
  }

  lemma RestoringCancelsAll(log: seq<Request>, answers: Answers, start: nat, begun: seq<Original>)
    requires Tracks(log, answers, start, begun)
    ensures AllCancelled(log + [QuietAll] + Restoring(begun), answers, start)
  {
    var all := log + [QuietAll] + Restoring(begun);
    RestoringLength(begun);
    forall k | |log| <= k < |all|
      ensures !all[k].AskBegin?
    {
      RestoringIsNoBegin(begun);
      assert k > |log| ==> all[k] in Restoring(begun);
    }
    forall k | start <= k < |all| && all[k].AskBegin? && answers(k).queued
      ensures exists j | k < j < |all| :: all[j] == AskCancel(all[k].id)
    {
      var o :| o in begun && o.id == log[k].id;
      var i :| 0 <= i < |begun| && begun[i] == o;
      RestoringAsksEach(begun, i);
      assert all[|log| + 1 + 2 * i + 1] == AskCancel(all[k].id);
    }
  }

  lemma RestoringKeepsTracks(log: seq<Request>, answers: Answers, start: nat, begun: seq<Original>)
    requires Tracks(log, answers, start, begun)
    ensures Tracks(log + [QuietAll] + Restoring(begun), answers, start, begun)
  {
    var all := log + [QuietAll] + Restoring(begun);
    forall k | |log| <= k < |all|
      ensures !all[k].AskBegin?
    {
      RestoringIsNoBegin(begun);
      assert k > |log| ==> all[k] in Restoring(begun);
    }
  }

  lemma {:induction false} RestoringIsNoBegin(begun: seq<Original>)
    ensures forall r <- Restoring(begun) :: !r.AskBegin?
  {
    if begun != [] {
      RestoringIsNoBegin(begun[..|begun| - 1]);
    }
  }

  /** Request `k` showed the original status, before any session was begun since `start`. */
  ghost predicate KnownAt(log: seq<Request>, answers: Answers, start: nat, o: Original, k: nat) {
    && start <= k < |log| && log[k] == AskStatus(o.id)
    && Replied(answers(k)) && answers(k).status == Some(o.status)
    && Harmless(log[start..k])
  }

  ghost predicate Known(log: seq<Request>, answers: Answers, start: nat, o: Original) {
    exists k: nat :: KnownAt(log, answers, start, o, k)
  }

  /** Nothing that would begin a session on the phone, set its volume or start its tone. */
  predicate LeavesAlone(requests: seq<Request>, id: nat) {
    forall r <- requests :: r != AskBegin(id) && r != AskTone(id, true) && !(r.AskVolume? && r.id == id)
  }

  /** Request `k` is a Cancel to which the phone confirmed its original volume, the last word
      to it after all measuring. */
  ghost predicate ConfirmedAt(log: seq<Request>, answers: Answers, since: nat, o: Original, k: nat) {
    && since <= k < |log| && log[k] == AskCancel(o.id) && Replied(answers(k))
    && CommitConfirmed(answers(k).status.value, o.status, o.status.volume)
    && LeavesAlone(log[k..], o.id)
  }

  ghost predicate Confirmed(log: seq<Request>, answers: Answers, since: nat, o: Original) {
    exists k: nat :: ConfirmedAt(log, answers, since, o, k)
  }

  lemma RestoredIsConfirmed(log: seq<Request>, answers: Answers, begun: seq<Original>, i: nat)
    requires i < |begun| && RestoredAt(answers, begun[i], |log| + 1 + 2 * i)
    ensures Confirmed(log + [QuietAll] + Restoring(begun), answers, |log|, begun[i])
  {
    var all, k := log + [QuietAll] + Restoring(begun), |log| + 1 + 2 * i + 1;
    hide Restoring, LeavesAlone, CommitConfirmed;
    RestoringAsksEach(begun, i);
    RestLeavesAlone(log, begun, k, begun[i].id);
    assert ConfirmedAt(all, answers, |log|, begun[i], k);
  }

  lemma RestLeavesAlone(log: seq<Request>, begun: seq<Original>, k: nat, id: nat)
    requires |log| < k <= |log| + 1 + |Restoring(begun)|
    ensures LeavesAlone((log + [QuietAll] + Restoring(begun))[k..], id)
  {
    RestoringIsMild(begun);
    var tail := Restoring(begun)[k - |log| - 1..];
    assert (log + [QuietAll] + Restoring(begun))[k..] == tail;
    forall r | r in tail
      ensures r in Restoring(begun)
    {
    }
  }

  lemma {:induction false} RestoringIsMild(begun: seq<Original>)
    ensures forall r <- Restoring(begun) :: r.AskCancel? || (r.AskTone? && !r.enabled)
  {
    if begun != [] {
      RestoringIsMild(begun[..|begun| - 1]);
    }
  }

  lemma HarmlessTracks(log: seq<Request>, later: seq<Request>, answers: Answers, start: nat, begun: seq<Original>)
    requires Tracks(log, answers, start, begun) && log <= later && Harmless(later[|log|..])
    ensures Tracks(later, answers, start, begun)
  {
  }
}
