/** What a calibration session guarantees on the phone
    (android/app/src/main/java/com/example/audiostream/DeviceVolumeControl.kt). */
module PhoneSessions {
  import opened Numbers
  import opened PhoneModel

  const CANCEL := 4

  /** A cancel of an open session reports success exactly if only the speaker plays and the
      stream was set back and read back at the original volume; the session is over anyway. */
  lemma CancelRestoresExactly(p: Phone, e: Surroundings)
    requires p.original.Some?
    ensures var done := CancelCalibration(p, e);
            && done.phone.original.None?
            && (done.ok <==>
                 OnSpeaker(e) && !e.setThrows && e.readable && Landed(e, p.original.value) == p.original.value)
            && (done.ok ==> done.phone.stream == p.original.value)
  {
  }

  /** A Cancel command that reports success on a session that has not expired has restored
      the stream. On an expired one it need not have: the expiry ends the session, its
      failure is overwritten, and the cancel of no session succeeds. */
  lemma CancelIsHonestExactly(p: Phone, c: Command, now: nat)
    requires p.original.Some? && c.operation == CANCEL
    ensures now < p.deadline <==>
      forall e: Phases | e.expiry.now == now && !Act(p, c, e).failed :: Act(p, c, e).phone.stream == p.original.value
  {
    if now >= p.deadline {
      var e := ElsewhereThenSilent(p, now);
      assert !Act(p, c, e).failed && Act(p, c, e).phone.stream != p.original.value;
    }
  }

  /** The expiry finds that the stream does not go back. */
  function ElsewhereThenSilent(p: Phone, now: nat): Phases
    requires p.original.Some?
  {
    var e := Surroundings(now, Some(true), false, 0, 15, false, Some(p.original.value + 1), true);
    Phases(e, e, e)
  }

  /** A concrete run of it: volume 3 at Begin, raised to 9, the deadline passed, and a route
      change keeps the phone from restoring 3. The Cancel reports success at volume 9. */
  lemma ExpiredCancelReportsSuccess()
    ensures var p := Phone(Some(3), 6000, 3, 9);
            var away := Surroundings(6000, Some(false), false, 0, 15, false, None, true);
            var back := away.(speaker := Some(true));
            var reply := ReplyTo(p, Command(77, CANCEL, 0), Phases(away, back, back));
            !reply.failed && reply.volume == 9
  {
  }

  /** When the restoration of an expired session fails, the reply to the command that found
      it expired hides the failure exactly if it is a Cancel, or a volume for the user or the
      speaker that is itself reached. */
  lemma FailedExpiryIsHiddenExactly(p: Phone, c: Command, e: Phases)
    requires Expired(p, e.expiry.now) && !CancelCalibration(p, e.expiry).ok
    ensures var reached := SetVolumeTo(Expiry(p, e.expiry).phone, c.operation, c.value, e.action);
            !Act(p, c, e).failed <==>
              c.operation == CANCEL || ((c.operation == 2 || c.operation == 7) && !reached.failed)
  {
  }

  /** The volume in a reply to anything but a volume command is the stream's own: whoever
      compares it with the original volume, as the server does, is not misled. */
  lemma RepliesShowTheStream(p: Phone, c: Command, e: Phases)
    requires c.operation !in {2, 6, 7} && !ReplyTo(p, c, e).failed
    ensures ReplyTo(p, c, e).volume == Apply(p, c, e).phone.stream
    ensures ReplyTo(p, c, e).requestId == c.requestId
  {
  }

  // ----- the original volume over a run -----

  datatype Event =
    | Do(command: Command, phases: Phases)
    | Watchdog(connected: bool, restore: Surroundings, report: Surroundings)
    | Route(first: Surroundings, phases: Phases)
    | Close(restore: Surroundings)
    | Outside(volume: int)

  function Next(p: Phone, event: Event): Phone {
    match event
    case Do(c, e) => Apply(p, c, e).phone
    case Watchdog(connected, restore, report) => Watch(p, connected, restore, report).phone
    case Route(first, e) => RouteChanged(p, first, e).phone
    case Close(e) => CancelCalibration(p, e).phone
    case Outside(volume) => p.(stream := volume)
  }

  function At(p: Phone, events: seq<Event>, k: nat): Phone
    requires k <= |events|
  {
    if k == 0 then p else Next(At(p, events, k - 1), events[k - 1])
  }

  /** A Begin that finds no session open, after an expired one was ended, with the stream
      at `volume`. */
  predicate Opens(p: Phone, event: Event, volume: int) {
    && event.Do? && event.command.operation == 3
    && var before := Expiry(p, event.phases.expiry).phone;
       before.original.None? && before.stream == volume
  }

  /** Event `k` opened the session that is open after `n` events. */
  ghost predicate OpensAt(p: Phone, events: seq<Event>, k: nat, n: nat, volume: int)
    requires k < n <= |events|
  {
    && Opens(At(p, events, k), events[k], volume)
    && forall j | k < j <= n :: At(p, events, j).original == Some(volume)
  }

  lemma OriginalComesFromBegin(p: Phone, event: Event, volume: int)
    requires Next(p, event).original == Some(volume)
    ensures p.original == Some(volume) || Opens(p, event, volume)
  {
  }

  /** The volume a session will restore is the one the stream had at the Begin that opened
      it, however many Begins, steps, expiries and route changes came since. */
  lemma {:induction false} OriginalIsFromFirstBegin(p: Phone, events: seq<Event>, n: nat, volume: int)
    requires n <= |events| && p.original.None? && At(p, events, n).original == Some(volume)
    ensures exists k :: 0 <= k < n && OpensAt(p, events, k, n, volume)
  {
    OriginalComesFromBegin(At(p, events, n - 1), events[n - 1], volume);
    if At(p, events, n - 1).original == Some(volume) {
      OriginalIsFromFirstBegin(p, events, n - 1, volume);
      var k :| 0 <= k < n - 1 && OpensAt(p, events, k, n - 1, volume);
      assert OpensAt(p, events, k, n, volume);
    } else {
      assert OpensAt(p, events, n - 1, n, volume);
    }
  }
}
