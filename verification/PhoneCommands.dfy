/** What each command does to a phone, and what it answers
    (android/app/src/main/java/com/example/audiostream/DeviceVolumeControl.kt:50-147). */
module PhoneCommands {
  import opened Numbers
  import opened PhoneModel

  const QUERY := 1
  const USER_VOLUME := 2
  const BEGIN := 3
  const CANCEL := 4
  const COMMIT := 5
  const CALIBRATION_VOLUME := 6
  const SPEAKER_VOLUME := 7
  const EXPIRED := 8

  predicate Overdue(p: Phone, now: nat) {
    p.original.Some? && p.deadline <= now
  }

  /** The phone can tell its volume, its range and its outputs. */
  predicate Tells(e: Surroundings) {
    e.readable && e.speaker.Some?
  }

  predicate Alone(e: Surroundings) {
    e.speaker == Some(true)
  }

  /** The value, or the end of the range that is nearer to it. */
  function Goal(value: u16, e: Surroundings): int {
    if value < e.minimum then e.minimum else if value > e.maximum then e.maximum else value
  }

  /** The stream stands at `volume` after it was set to it. */
  predicate Lands(e: Surroundings, volume: int) {
    e.landsAt.None? || e.landsAt.value == volume
  }

  // ----- volume commands -----

  /** A volume for the user needs the speaker only during a session; one for the speaker needs
      it always, and one for calibration needs a session too. */
  predicate MaySet(p: Phone, operation: nat, e: Surroundings) {
    && !e.fixed && e.minimum <= e.maximum && !e.setThrows
    && match operation
       case 2 => p.original.None? || Alone(e)
       case 6 => p.original.Some? && Alone(e)
       case 7 => Alone(e)
       case _ => false
  }

  /** A volume command succeeds exactly if it was permitted and the stream was read back where it
      was set, and then stream and answer are at the value it carries, or the nearer end of the
      range. Refused, it leaves the stream alone. No session begins or ends. */
  lemma VolumeCommandSets(p: Phone, c: Command, e: Phases)
    requires !Overdue(p, e.expiry.now) && c.operation in {USER_VOLUME, CALIBRATION_VOLUME, SPEAKER_VOLUME}
    ensures var q, reply, goal := Apply(p, c, e).phone, ReplyTo(p, c, e), Goal(c.value, e.action);
            && (!reply.failed <==>
                  MaySet(p, c.operation, e.action) && e.action.readable && Lands(e.action, goal) && Tells(e.report))
            && (!reply.failed ==> q.stream == reply.volume == goal)
            && (!MaySet(p, c.operation, e.action) ==> q.stream == p.stream)
            && (MaySet(p, c.operation, e.action) && Tells(e.report) && e.action.readable ==> reply.volume == q.stream)
            && (MaySet(p, c.operation, e.action) && Lands(e.action, goal) ==> q.stream == goal)
            && reply.requestId == c.requestId && Apply(p, c, e).replies == [reply]
            && q.original == p.original && q.deadline == p.deadline
            && q.reported == (if MaySet(p, c.operation, e.action) && e.action.readable && Tells(e.report)
                              then q.stream else p.reported)
  {
  }

  // ----- sessions -----

  /** A Begin opens a session at the stream's volume, or extends an open one, exactly if only
      the speaker plays and the volume can be changed. */
  lemma BeginOpens(p: Phone, c: Command, e: Phases)
    requires !Overdue(p, e.expiry.now) && c.operation == BEGIN
    ensures var q, reply := Apply(p, c, e).phone, ReplyTo(p, c, e);
            var opens := Alone(e.action) && !e.action.fixed && (p.original.Some? || e.action.readable);
            && q.stream == p.stream && reply.requestId == c.requestId && Apply(p, c, e).replies == [reply]
            && (if opens then
                  q.deadline == e.action.now + 6000
                  && q.original == Some(if p.original.Some? then p.original.value else p.stream)
                else q.original == p.original && q.deadline == p.deadline)
            && (!reply.failed <==> opens && Tells(e.report))
            && (!reply.failed ==> reply.volume == p.stream)
  {
  }

  /** A Commit closes a session, without restoring it, exactly if the stream is at its value. */
  lemma CommitCloses(p: Phone, c: Command, e: Phases)
    requires !Overdue(p, e.expiry.now) && c.operation == COMMIT
    ensures var q, reply := Apply(p, c, e).phone, ReplyTo(p, c, e);
            var closes := p.original.Some? && Alone(e.action) && e.action.readable && p.stream == c.value;
            && q.stream == p.stream && q.deadline == p.deadline
            && q.original == (if closes then None else p.original)
            && (!reply.failed <==> closes && Tells(e.report)) && (!reply.failed ==> reply.volume == c.value)
            && reply.requestId == c.requestId && Apply(p, c, e).replies == [reply]
  {
  }

  /** A Cancel ends the session in any case. */
  lemma CancelEnds(p: Phone, c: Command, e: Phases)
    requires !Overdue(p, e.expiry.now) && c.operation == CANCEL
    ensures var q, reply := Apply(p, c, e).phone, ReplyTo(p, c, e);
            var sets := p.original.Some? && Alone(e.action) && !e.action.setThrows;
            && q.original.None? && q.deadline == p.deadline
            && q.stream == (if !sets then p.stream
                            else if e.action.landsAt.Some? then e.action.landsAt.value else p.original.value)
            && (!reply.failed <==>
                  && (p.original.None? || (sets && e.action.readable && Lands(e.action, p.original.value)))
                  && Tells(e.report))
            && (!reply.failed ==> reply.volume == q.stream)
            && reply.requestId == c.requestId && Apply(p, c, e).replies == [reply]
  {
  }

  /** A query keeps a session open for six more seconds. */
  lemma QueryExtends(p: Phone, c: Command, e: Phases)
    requires !Overdue(p, e.expiry.now) && c.operation == QUERY
    ensures var q, reply := Apply(p, c, e).phone, ReplyTo(p, c, e);
            && q.stream == p.stream && q.original == p.original
            && q.deadline == (if p.original.Some? then e.action.now + 6000 else p.deadline)
            && (!reply.failed <==> Tells(e.report)) && (!reply.failed ==> reply.volume == p.stream)
            && reply.requestId == c.requestId
  {
  }

  /** A command that expired on its way fails and does nothing, and any other number does
      nothing. */
  lemma OthersDoNothing(p: Phone, c: Command, e: Phases)
    requires !Overdue(p, e.expiry.now)
    requires c.operation == EXPIRED || c.operation == 0 || c.operation > EXPIRED
    ensures Apply(p, c, e).phone == p.(reported := Apply(p, c, e).phone.reported)
    ensures !ReplyTo(p, c, e).failed <==> c.operation != EXPIRED && Tells(e.report)
  {
  }

  /** What the phone is once an overdue session was restored. */
  function Restored(p: Phone, e: Surroundings): Phone
    requires p.original.Some?
  {
    p.(original := None,
       stream := if !Alone(e) || e.setThrows then p.stream
                 else if e.landsAt.Some? then e.landsAt.value else p.original.value)
  }

  /** A session that is overdue is ended before any command, and the command then finds none:
      everything above holds of the phone it leaves. Only a query, a Begin and an unknown
      number pass on that the restoration failed. */
  lemma OverdueIsRestoredFirst(p: Phone, c: Command, e: Phases)
    requires Overdue(p, e.expiry.now) && c.requestId != 0
    ensures var q := Restored(p, e.expiry);
            && !Overdue(q, e.expiry.now)
            && Apply(p, c, e).phone.(reported := 0) == Apply(q, c, e).phone.(reported := 0)
            && (ReplyTo(q, c, e).failed ==> ReplyTo(p, c, e).failed)
            && ReplyTo(p, c, e).(failed := false) == ReplyTo(q, c, e).(failed := false)
            && (ReplyTo(p, c, e).failed && !ReplyTo(q, c, e).failed ==>
                  c.operation !in {USER_VOLUME, CANCEL, COMMIT, CALIBRATION_VOLUME, SPEAKER_VOLUME, EXPIRED})
            && Apply(p, c, e).replies == [ReplyTo(p, c, e)]
  {
  }

  // ----- news -----

  /** Before the answer to a query, and to nothing else, the phone reports a volume that it did
      not report before as news: it changed without a command. */
  lemma QueryTellsNews(p: Phone, c: Command, e: Phases)
    requires !Overdue(p, e.expiry.now)
    ensures var replies, reply := Apply(p, c, e).replies, ReplyTo(p, c, e);
            replies ==
              (if c.operation == QUERY && c.requestId != 0 && !reply.failed
                  && p.reported >= 0 && p.reported != p.stream
               then [reply.(requestId := 0)] else []) + [reply]
    ensures !ReplyTo(p, c, e).failed ==> Apply(p, c, e).phone.reported == ReplyTo(p, c, e).volume
    ensures Tells(e.report) ==>
      var reply := ReplyTo(p, c, e);
      && reply.minimum == e.report.minimum && reply.maximum == e.report.maximum && reply.fixed == e.report.fixed
      && (reply.speaker <==> Alone(e.report))
  {
  }

  // ----- without a command -----

  /** The watchdog ends a session that is overdue or has lost its connection, and no other. */
  lemma WatchdogEnds(p: Phone, connected: bool, restore: Surroundings, report: Surroundings)
    ensures var q := Watch(p, connected, restore, report).phone;
            if p.original.Some? && (p.deadline <= restore.now || !connected) then
              q.original.None? && q.stream == Restored(p, restore).stream && q.deadline == p.deadline
            else q.original == p.original && q.stream == p.stream && q.deadline == p.deadline
  {
  }

  /** While connected it reports a volume that it did not report before. */
  lemma WatchdogTellsNews(p: Phone, restore: Surroundings, report: Surroundings)
    requires !(p.original.Some? && p.deadline <= restore.now) && Tells(report)
    ensures var watched := Watch(p, true, restore, report);
            if p.stream == p.reported then watched.replies == [] && watched.phone == p
            else
              && watched.phone == p.(reported := p.stream) && |watched.replies| == 1
              && watched.replies[0].requestId == 0 && watched.replies[0].volume == p.stream
              && !watched.replies[0].failed
  {
  }

  /** With nothing to end and nothing to tell it does nothing; not connected, it tells nobody. */
  lemma WatchdogIsSilent(p: Phone, connected: bool, restore: Surroundings, report: Surroundings)
    requires !(p.original.Some? && (p.deadline <= restore.now || !connected))
    requires !connected || !report.readable || p.stream == p.reported
    ensures Watch(p, connected, restore, report) == Reported(p, [])
  {
  }

  /** A session that the watchdog restored is reported, failed or not. */
  lemma WatchdogTellsRestoration(p: Phone, connected: bool, restore: Surroundings, report: Surroundings)
    requires p.original.Some? && (p.deadline <= restore.now || !connected) && Tells(report)
    ensures var watched := Watch(p, connected, restore, report);
            var ok := Alone(restore) && !restore.setThrows && restore.readable && Lands(restore, p.original.value);
            && 1 <= |watched.replies| <= 2
            && watched.replies[0].requestId == 0 && watched.replies[0].volume == watched.phone.stream
            && (watched.replies[0].failed <==> !ok)
            && (connected || ok ==> watched.phone.reported == watched.phone.stream)
  {
  }

  /** When the outputs change the session ends, unless only the speaker plays; a failed
      restoration and outputs that cannot be told are reported as failures. */
  lemma RouteEnds(p: Phone, first: Surroundings, e: Phases)
    ensures var changed := RouteChanged(p, first, e);
            && changed.phone.deadline == p.deadline && |changed.replies| == 1 && changed.replies[0].requestId == 0
            && (if first.speaker == Some(true) || p.original.None? then
                  changed.phone.original == p.original && changed.phone.stream == p.stream
                else changed.phone.original.None? && changed.phone.stream == Restored(p, e.action).stream)
            && (!changed.replies[0].failed <==>
                  && Tells(e.report) && first.speaker.Some?
                  && (first.speaker.value || p.original.None?
                      || (Alone(e.action) && !e.action.setThrows && e.action.readable
                          && Lands(e.action, p.original.value))))
            && (!changed.replies[0].failed ==> changed.replies[0].volume == changed.phone.stream)
  {
  }
}
