/** What a phone's report does to the server's registry
    (windows-server/src/application/registry.rs:321-389). */
module ReportEffects {
  import opened Numbers
  import opened ControlMessages
  import opened Text
  import opened VolumeProfiles
  import opened RegistryModel

  /** A range within 0 to 512 that holds the volume. */
  predicate IsPlausible(s: DeviceStatus) {
    s.minimum <= s.volume && s.volume <= s.maximum && s.maximum <= 512
  }

  /** A report that makes no sense or comes from nobody changes nothing; any other changes the
      receiver it is from and no other. */
  lemma ReportReachesOne(g: Registry, id: nat, status: DeviceStatus)
    ensures var h := UpdateDevice(g, id, status);
            && (!IsPlausible(status) || id !in g.receivers ==> h == g)
            && h.nextId == g.nextId && h.nextRequest == g.nextRequest && h.receivers.Keys == g.receivers.Keys
            && (forall other <- g.receivers :: other != id ==> h.receivers[other] == g.receivers[other])
            && (id in g.receivers ==>
                  && h.receivers[id].controls == g.receivers[id].controls
                  && h.receivers[id].capacity == g.receivers[id].capacity
                  && h.receivers[id].connected == g.receivers[id].connected)
  {
  }

  // ----- what is stored -----

  predicate IsIdCharacter(c: char) {
    '0' <= c <= '9' || 'A' <= c <= 'Z' || 'a' <= c <= 'z' || c == '-'
  }

  function First80(s: string): string { s[..Min(|s|, 80)] }

  lemma {:induction false} FilterOnlyKeeps(s: string, keep: char -> bool)
    ensures forall c <- Filter(s, keep) :: keep(c)
  {
    if s != "" {
      FilterOnlyKeeps(s[1..], keep);
    }
  }

  lemma {:induction false} FilterInParts(a: string, b: string, keep: char -> bool)
    ensures Filter(a + b, keep) == Filter(a, keep) + Filter(b, keep)
  {
    if a == "" {
      assert a + b == b;
    } else {
      assert (a + b)[1..] == a[1..] + b;
      FilterInParts(a[1..], b, keep);
    }
  }

  /** The stored status is the reported one with its id and name cleaned: of at most 80 allowed
      characters, and the first 80 of a text that has no other. */
  lemma ReportIsStored(g: Registry, id: nat, status: DeviceStatus)
    requires IsPlausible(status) && id in g.receivers
    ensures UpdateDevice(g, id, status).receivers[id].device.Some?
    ensures var d := UpdateDevice(g, id, status).receivers[id].device.value;
            && d == status.(deviceId := d.deviceId, name := d.name)
            && |d.deviceId| <= 80 && |d.name| <= 80
            && (forall c <- d.deviceId :: IsIdCharacter(c)) && (forall c <- d.name :: !IsControl(c))
            && ((forall c <- status.deviceId :: IsIdCharacter(c)) ==> d.deviceId == First80(status.deviceId))
            && ((forall c <- status.name :: !IsControl(c)) ==> d.name == First80(status.name))
  {
    hide UpdateReceiver, Classify, StoreReply, Unchanged, Filter;
    CleanedIsAllowed(status);
    StoredIsCleaned(g, id, status);
  }

  lemma StoredIsCleaned(g: Registry, id: nat, status: DeviceStatus)
    requires IsPlausible(status) && id in g.receivers
    ensures UpdateDevice(g, id, status).receivers[id].device == Some(Sanitize(status))
  {
  }

  lemma CutIsAllowed(s: string, keep: char -> bool)
    ensures var t := Take(Filter(s, keep), 80);
            |t| <= 80 && (forall c <- t :: keep(c)) && ((forall c <- s :: keep(c)) ==> t == First80(s))
  {
    FilterOnlyKeeps(s, keep);
    if forall c <- s :: keep(c) {
      FilterKeepsAll(s, keep);
    }
    hide Filter;
    var all := Filter(s, keep);
    assert forall c <- Take(all, 80) :: c in all;
  }

  lemma CleanedIsAllowed(status: DeviceStatus)
    ensures var d := Sanitize(status);
            && |d.deviceId| <= 80 && |d.name| <= 80
            && (forall c <- d.deviceId :: IsIdCharacter(c)) && (forall c <- d.name :: !IsControl(c))
            && ((forall c <- status.deviceId :: IsIdCharacter(c)) ==> d.deviceId == First80(status.deviceId))
            && ((forall c <- status.name :: !IsControl(c)) ==> d.name == First80(status.name))
  {
    CutIsAllowed(status.deviceId, IsKeptInId);
    CutIsAllowed(status.name, IsKeptInName);
    hide Filter, Take;
    var id, name := Sanitize(status).deviceId, Sanitize(status).name;
    assert forall c :: IsKeptInId(c) <==> IsIdCharacter(c);
    forall c | c in id
      ensures IsIdCharacter(c)
    {
      assert IsKeptInId(c);
    }
    forall c | c in name
      ensures !IsControl(c)
    {
      assert IsKeptInName(c);
    }
    IdsAgree(status.deviceId);
  }

  lemma IdsAgree(s: string)
    ensures (forall c <- s :: IsIdCharacter(c)) <==> forall c <- s :: IsKeptInId(c)
  {
  }

  /** Any other character is as good as not there. */
  lemma OtherCharactersAreIgnored(status: DeviceStatus, a: string, c: char, b: string)
    ensures !IsIdCharacter(c) ==>
      Sanitize(status.(deviceId := a + [c] + b)).deviceId == Sanitize(status.(deviceId := a + b)).deviceId
    ensures IsControl(c) ==> Sanitize(status.(name := a + [c] + b)).name == Sanitize(status.(name := a + b)).name
  {
    DropOne(a, c, b, IsKeptInId);
    DropOne(a, c, b, IsKeptInName);
  }

  lemma DropOne(a: string, c: char, b: string, keep: char -> bool)
    ensures !keep(c) ==> Filter(a + [c] + b, keep) == Filter(a + b, keep)
  {
    FilterInParts(a + [c], b, keep);
    FilterInParts(a, [c], keep);
    FilterInParts(a, b, keep);
    assert [c][1..] == "";
  }

  /** `after` has the answer beside those that waited; of 32 or more the one to the oldest request
      made room. */
  ghost predicate KeepsAlso(before: map<nat, DeviceStatus>, after: map<nat, DeviceStatus>, answer: DeviceStatus) {
    && answer.requestId in after && after[answer.requestId] == answer
    && (forall k <- after :: k == answer.requestId || (k in before && after[k] == before[k]))
    && if |before| < 32 then after.Keys == before.Keys + {answer.requestId}
       else exists oldest <- before :: DropsOnly(before.Keys, after.Keys, oldest, answer.requestId)
  }

  ghost predicate DropsOnly(before: set<nat>, after: set<nat>, oldest: nat, request: nat) {
    (forall k <- before :: oldest <= k) && after == before - {oldest} + {request}
  }

  lemma StoringKeepsAlso(before: map<nat, DeviceStatus>, answer: DeviceStatus)
    ensures KeepsAlso(before, StoreReply(before, answer), answer)
  {
    if |before| >= 32 {
      assert DropsOnly(before.Keys, StoreReply(before, answer).Keys, Least(before.Keys), answer.requestId);
    }
  }

  /** An answer waits under its request id until it is taken. Reports without a request leave none. */
  lemma AnswerIsKept(g: Registry, id: nat, status: DeviceStatus)
    requires IsPlausible(status) && id in g.receivers
    ensures var r, q := g.receivers[id], UpdateDevice(g, id, status).receivers[id];
            && q.device.Some?
            && if status.requestId == 0 then q.replies == r.replies else KeepsAlso(r.replies, q.replies, q.device.value)
  {
    StoringKeepsAlso(g.receivers[id].replies, Sanitize(status));
    hide StoreReply, KeepsAlso, Unchanged;
  }

  // ----- gates -----

  /** The gate closes exactly if the report shows anything but the setting already known. */
  lemma GateStaysExactly(g: Registry, id: nat, status: DeviceStatus)
    requires IsPlausible(status) && id in g.receivers
    ensures var r, q := g.receivers[id], UpdateDevice(g, id, status).receivers[id];
            q.playback <==>
              && r.playback && r.device.Some?
              && r.device.value == q.device.value.(name := r.device.value.name, requestId := r.device.value.requestId)
  {
  }

  // ----- key presses, receipts and barriers -----

  /** The same device in the same range, as far as it is known. */
  predicate IsKnown(r: Receiver, d: DeviceStatus) {
    && r.device.Some?
    && r.device.value.deviceId == d.deviceId
    && r.device.value.minimum == d.minimum && r.device.value.maximum == d.maximum
  }

  /** Unasked, from an adjustable speaker. */
  predicate IsUnasked(d: DeviceStatus) {
    d.requestId == 0 && d.speaker && !d.fixed && !d.failed
  }

  predicate IsPress(r: Receiver, d: DeviceStatus) {
    IsUnasked(d) && r.panelBarrier.None? && r.observed.Some? && r.observed.value != d.volume
  }

  /** A press is remembered exactly if a known phone reports, unasked, another volume than was
      last observed while no barrier stands. Another device forgets the press, and nothing else
      touches it. */
  lemma PressIsRemembered(g: Registry, id: nat, status: DeviceStatus)
    requires IsPlausible(status) && id in g.receivers
    ensures var r, q := g.receivers[id], UpdateDevice(g, id, status).receivers[id];
            var d := q.device.value;
            && (!IsKnown(r, d) ==> q.unsolicited.None?)
            && (IsKnown(r, d) && IsPress(r, d) ==> q.unsolicited == Some(d.volume))
            && (IsKnown(r, d) && !IsPress(r, d) ==> q.unsolicited == r.unsolicited)
  {
  }

  /** The observed volume follows a new device, an unasked report, and the receipt of a volume
      request unless that failed on an output that could not have obeyed. */
  lemma VolumeIsObserved(g: Registry, id: nat, status: DeviceStatus)
    requires IsPlausible(status) && id in g.receivers
    ensures var r, q := g.receivers[id], UpdateDevice(g, id, status).receivers[id];
            var d := q.device.value;
            var receipt := IsKnown(r, d) && !IsUnasked(d) && d.requestId in r.volumeRequests;
            && q.observed == (if !IsKnown(r, d) || IsUnasked(d) || (receipt && (!d.failed || (d.speaker && !d.fixed)))
                              then Some(d.volume) else r.observed)
            && q.volumeRequests == (if receipt then r.volumeRequests - {d.requestId} else r.volumeRequests)
            && q.panelBarrier == (if r.panelBarrier == Some(d.requestId) then None else r.panelBarrier)
  {
  }

  /** Some phone can report itself as the device, fit to be calibrated, at the volume. */
  ghost predicate CanReport(r: DeviceRange, volume: u16) {
    exists s: DeviceStatus :: IsReportOf(s, r, volume)
  }

  ghost predicate IsReportOf(s: DeviceStatus, r: DeviceRange, volume: u16) {
    var d := Sanitize(s);
    IsPlausible(s) && Usable(d) && Matches(r, d) && d.volume == volume
  }

  lemma ReportsAreValid(s: DeviceStatus, r: DeviceRange, volume: u16)
    requires IsReportOf(s, r, volume)
    ensures ValidDevice(r) && r.minimum <= volume <= r.maximum
  {
    FilterOnlyKeeps(s.deviceId, IsKeptInId);
    assert forall c <- Take(Filter(s.deviceId, IsKeptInId), MAX_NAME) :: c in Filter(s.deviceId, IsKeptInId);
  }

  lemma ValidIsReported(r: DeviceRange, volume: u16)
    requires ValidDevice(r) && r.minimum <= volume <= r.maximum
    ensures CanReport(r, volume)
  {
    var s := DeviceStatus(0, r.id, "", volume, r.minimum, r.maximum, false, true, false);
    FilterKeepsAll(r.id, IsKeptInId);
    assert IsReportOf(s, r, volume);
  }

  /** A device of a profile is valid exactly if a phone can report itself as that device, fit to be
      calibrated. */
  lemma DeviceIsValidExactly(r: DeviceRange)
    ensures ValidDevice(r) <==> exists volume: u16 :: CanReport(r, volume)
  {
    if volume: u16 :| CanReport(r, volume) {
      var s :| IsReportOf(s, r, volume);
      ReportsAreValid(s, r, volume);
    }
    if ValidDevice(r) {
      ValidIsReported(r, r.minimum);
    }
  }

  /** And a mapping exactly if each entry leads from a volume that the master can report to one that
      the follower can. */
  lemma MappingIsValidExactly(p: Profile, f: Follower)
    requires ValidDevice(p.master) && ValidDevice(f.device)
    ensures ValidMapping(p, f) <==>
            forall m <- f.mapping :: CanReport(p.master, m) && CanReport(f.device, f.mapping[m])
  {
    hide ValidDevice, CanReport;
    forall m | m in f.mapping
      ensures CanReport(p.master, m) <==> p.master.minimum <= m <= p.master.maximum
      ensures CanReport(f.device, f.mapping[m]) <==> f.device.minimum <= f.mapping[m] <= f.device.maximum
    {
      CanReportExactly(p.master, m);
      CanReportExactly(f.device, f.mapping[m]);
    }
  }

  lemma CanReportExactly(r: DeviceRange, volume: u16)
    requires ValidDevice(r)
    ensures CanReport(r, volume) <==> r.minimum <= volume <= r.maximum
  {
    if CanReport(r, volume) {
      var s :| IsReportOf(s, r, volume);
      ReportsAreValid(s, r, volume);
    }
    if r.minimum <= volume <= r.maximum {
      ValidIsReported(r, volume);
    }
  }
}
