/** How a phone applies volume commands and guards a calibration session, as functions of its
    value (android/app/src/main/java/com/example/audiostream/DeviceVolumeControl.kt). What the
    audio manager answers, exceptions included, is given for each phase of a command. */
module PhoneModel {
  import opened Numbers

  const SESSION_MS := 6000

  /** `stream` is the phone's media volume; outside an open session `original` is None. */
  datatype Phone = Phone(original: Option<int>, deadline: nat, reported: int, stream: int)

  /** What the phone finds while it works: whether only the speaker plays (None: the call
      threw), whether the volume is fixed, its range, whether setting it throws or ends
      elsewhere than asked, and whether reading it and its range works. */
  datatype Surroundings = Surroundings(
    now: nat,
    speaker: Option<bool>,
    fixed: bool,
    minimum: int,
    maximum: int,
    setThrows: bool,
    landsAt: Option<int>,
    readable: bool)

  predicate OnSpeaker(e: Surroundings) {
    e.speaker == Some(true)
  }

  /** The stream after setting it to `index`. */
  function Landed(e: Surroundings, index: int): int {
    match e.landsAt
    case None => index
    case Some(v) => v
  }

  datatype Cancelled = Cancelled(phone: Phone, ok: bool)

  /** Ends the session whatever happens; true if there was none or the stream is back. */
  function CancelCalibration(p: Phone, e: Surroundings): Cancelled {
    if p.original.None? then Cancelled(p, true) else
    var original, p := p.original.value, p.(original := None);
    if !OnSpeaker(e) || e.setThrows then Cancelled(p, false) else
    var p := p.(stream := Landed(e, original));
    Cancelled(p, e.readable && p.stream == original)
  }

  // ----- commands -----

  datatype Operation = Operation(phone: Phone, failed: bool, commandVolume: Option<int>)

  predicate Expired(p: Phone, now: nat) {
    p.original.Some? && now >= p.deadline
  }

  /** `coerceIn`, whose range must not be empty. */
  function Coerce(value: int, minimum: int, maximum: int): int {
    Max(minimum, Min(value, maximum))
  }

  /** Operations 2, 6 and 7: a volume for the user, a calibration step, or a volume that must
      come out of the speaker. */
  function SetVolumeTo(p: Phone, operation: nat, value: u16, e: Surroundings): Operation {
    var refused := e.fixed || ((operation != 2 || p.original.Some?) && !OnSpeaker(e))
      || (operation == 6 && p.original.None?);
    if refused || e.minimum > e.maximum || e.setThrows then Operation(p, true, None) else
    var index := Coerce(value, e.minimum, e.maximum);
    var p := p.(stream := Landed(e, index));
    if !e.readable then Operation(p, true, None)
    else Operation(p, p.stream != index, Some(p.stream))
  }

  /** Operation 3 opens a session, or extends the open one. */
  function BeginSession(p: Phone, failed: bool, e: Surroundings): Operation {
    if e.fixed || !OnSpeaker(e) || (p.original.None? && !e.readable) then Operation(p, true, None) else
    Operation(p.(original := if p.original.None? then Some(p.stream) else p.original,
                 deadline := e.now + SESSION_MS), failed, None)
  }

  /** Operation 5 closes the session at the volume that was chosen. */
  function CommitSession(p: Phone, value: u16, failed: bool, e: Surroundings): Operation {
    if p.original.None? || !OnSpeaker(e) || !e.readable || p.stream != value then Operation(p, true, None)
    else Operation(p.(original := None), failed, None)
  }

  function Operate(p: Phone, operation: nat, value: u16, failed: bool, e: Surroundings): Operation {
    match operation
    case 1 => Operation(if p.original.Some? then p.(deadline := e.now + SESSION_MS) else p, failed, None)
    case 2 => SetVolumeTo(p, 2, value, e)
    case 6 => SetVolumeTo(p, 6, value, e)
    case 7 => SetVolumeTo(p, 7, value, e)
    case 3 => BeginSession(p, failed, e)
    case 4 => Operation(CancelCalibration(p, e).phone, !CancelCalibration(p, e).ok, None)
    case 8 => Operation(p, true, None)
    case 5 => CommitSession(p, value, failed, e)
    case _ => Operation(p, failed, None)
  }

  // ----- reports -----

  datatype Reply = Reply(
    requestId: nat,
    volume: int,
    minimum: int,
    maximum: int,
    fixed: bool,
    speaker: bool,
    failed: bool)

  datatype Reported = Reported(phone: Phone, replies: seq<Reply>)

  /** A reply, and before it news of a volume that changed without a command. */
  function Report(p: Phone, requestId: nat, failed: bool, observe: bool, commandVolume: Option<int>, e: Surroundings)
    : Reported
  {
    if !e.readable || e.speaker.None? then
      Reported(p, [Reply(requestId, 0, 0, 0, true, false, true)])
    else
      var volume := match commandVolume case Some(v) => v case None => p.stream;
      var reply := Reply(requestId, volume, e.minimum, e.maximum, e.fixed, OnSpeaker(e), failed);
      var news := observe && !failed && requestId != 0 && p.reported >= 0 && volume != p.reported;
      Reported(
        p.(reported := if !failed || commandVolume.Some? then volume else p.reported),
        (if news then [reply.(requestId := 0)] else []) + [reply])
  }

  /** The answers of the audio manager while an expired session is restored, while the
      command acts and while its reply is built. */
  datatype Phases = Phases(expiry: Surroundings, action: Surroundings, report: Surroundings)

  datatype Command = Command(requestId: nat, operation: nat, value: u16)

  /** What the expiry check before every command leaves. */
  function Expiry(p: Phone, e: Surroundings): Cancelled {
    if Expired(p, e.now) then CancelCalibration(p, e) else Cancelled(p, true)
  }

  function Act(p: Phone, c: Command, e: Phases): Operation {
    var restored := Expiry(p, e.expiry);
    Operate(restored.phone, c.operation, c.value, !restored.ok, e.action)
  }

  function Apply(p: Phone, c: Command, e: Phases): Reported {
    var done := Act(p, c, e);
    Report(done.phone, c.requestId, done.failed, c.operation == 1 && !Expired(p, e.expiry.now),
           done.commandVolume, e.report)
  }

  /** The reply to the command itself comes last. */
  function ReplyTo(p: Phone, c: Command, e: Phases): Reply {
    var replies := Apply(p, c, e).replies;
    replies[|replies| - 1]
  }

  // ----- without a command -----

  /** The watchdog: a session past its deadline, or without a connection, is restored; a
      volume that changed is reported. */
  function Watch(p: Phone, connected: bool, restore: Surroundings, report: Surroundings): Reported {
    var due := p.original.Some? && (restore.now >= p.deadline || !connected);
    var ended := if due then CancelCalibration(p, restore) else Cancelled(p, true);
    var told := if due then Report(ended.phone, 0, !ended.ok, false, None, report) else Reported(p, []);
    if connected && report.readable && told.phone.stream != told.phone.reported then
      var more := Report(told.phone, 0, false, false, None, report);
      Reported(more.phone, told.replies + more.replies)
    else told
  }

  /** A change of the output route ends the session unless only the speaker plays. */
  function RouteChanged(p: Phone, first: Surroundings, e: Phases): Reported {
    var ended := if first.speaker == Some(true) then Cancelled(p, true) else CancelCalibration(p, e.action);
    Report(ended.phone, 0, first.speaker.None? || !ended.ok, false, None, e.report)
  }
}
