/** What the phone's network side shares with its device and audio threads: the command
    queue, the report queue and the calibration tone
    (android/app/src/main/rust/src/device_control.rs). */
module DeviceControl {
  import opened Numbers
  import opened ControlMessages
  import opened Model = ToneModel

  const QUEUE_LENGTH := 32
  const COMMAND_MS := 2000
  const CANCEL_OPERATION := 4
  const EXPIRED_OPERATION := 8

  // ----- commands -----

  datatype Command = Command(requestId: u32, operation: u8, value: u16)

  /** A command as the phone's Kotlin side takes it: id, operation and value in one number. */
  function Code(c: Command): nat {
    c.requestId * 0x100_0000 + c.operation * 0x1_0000 + c.value
  }

  /** The Kotlin side reads back every field. */
  lemma CodeIsReadBack(c: Command)
    ensures Code(c) / 0x100_0000 == c.requestId
    ensures Code(c) / 0x1_0000 % 0x100 == c.operation
    ensures Code(c) % 0x1_0000 == c.value
    ensures c.operation != 0 ==> Code(c) != 0
  {
  }

  datatype PendingCommand = PendingCommand(value: nat, expires: Option<nat>)

  function Pending(c: Command, now: nat): PendingCommand {
    PendingCommand(Code(c), if c.operation == CANCEL_OPERATION then None else Some(now + COMMAND_MS))
  }

  /** What taking a command gives at `now`. */
  function Taken(p: PendingCommand, now: nat): nat {
    if p.expires.Some? && now >= p.expires.value
    then p.value - p.value % 0x100_0000 + EXPIRED_OPERATION * 0x1_0000
    else p.value
  }

  /** A command that waited two seconds comes out as an expiry under its own request id;
      a cancellation never expires. */
  lemma CommandsExpire(c: Command, enqueued: nat, now: nat)
    requires enqueued <= now
    ensures Taken(Pending(c, enqueued), now)
            == Code(if c.operation != CANCEL_OPERATION && now - enqueued >= COMMAND_MS
                    then Command(c.requestId, EXPIRED_OPERATION, 0) else c)
  {
  }

  // ----- reports -----

  datatype Report = Status(status: DeviceStatus) | Tone(state: ToneState)

  function AsReports(states: seq<ToneState>): seq<Report> {
    seq(|states|, k requires 0 <= k < |states| => Report.Tone(states[k]))
  }

  class Shared {
    var commands: seq<PendingCommand>
    var reports: seq<Report>
    var tone: Model.Tone
    var speaker: bool
    /** All reports since the last reset. */
    ghost var pushed: seq<Report>

    ghost predicate Valid()
      reads this
    {
      && Model.Valid(tone) && |commands| <= QUEUE_LENGTH && |reports| <= QUEUE_LENGTH
      // the reports waiting are the newest ones
      && |reports| <= |pushed| && reports == pushed[|pushed| - |reports|..]
    }

    constructor ()
      ensures Valid() && commands == [] && reports == [] && pushed == [] && !speaker
      ensures tone == Model.Tone(0, None, false)
    {
      commands, reports, speaker, pushed := [], [], false, [];
      tone := Model.Tone(0, None, false);
    }

    method EnqueueOperation(requestId: u32, operation: u8, value: u16, now: nat) returns (queued: bool)
      requires Valid()
      modifies this`commands
      ensures Valid() && (queued <==> |old(commands)| < QUEUE_LENGTH)
      ensures commands == old(commands) + if queued then [Pending(Command(requestId, operation, value), now)] else []
    {
      if |commands| >= QUEUE_LENGTH {
        return false;
      }
      var code := requestId * 0x100_0000 + operation * 0x1_0000 + value;
      commands := commands
        + [PendingCommand(code, if operation != CANCEL_OPERATION then Some(now + COMMAND_MS) else None)];
      return true;
    }

    /** Zero when nothing waits. */
    method TakeCommandAt(now: nat) returns (command: nat)
      requires Valid()
      modifies this`commands
      ensures Valid()
      ensures old(commands) == [] ==> command == 0 && commands == []
      ensures old(commands) != [] ==> command == Taken(old(commands)[0], now) && commands == old(commands)[1..]
    {
      if commands == [] {
        return 0;
      }
      var front := commands[0];
      commands := commands[1..];
      return Taken(front, now);
    }

    method PushReport(report: Report)
      requires Valid()
      modifies this`reports, this`pushed
      ensures Valid() && pushed == old(pushed) + [report]
      ensures |reports| == Min(|old(reports)| + 1, QUEUE_LENGTH)
    {
      if |reports| >= QUEUE_LENGTH {
        reports := reports[1..];
      }
      reports := reports + [report];
      pushed := pushed + [report];
    }

    method TakeReport() returns (report: Option<Report>)
      requires Valid()
      modifies this`reports
      ensures Valid()
      ensures old(reports) == [] ==> report.None? && reports == []
      ensures old(reports) != [] ==> report == Some(old(reports)[0]) && reports == old(reports)[1..]
    {
      if reports == [] {
        return None;
      }
      report := Some(reports[0]);
      reports := reports[1..];
    }

    /** A status from the device thread. Losing the speaker stops the tone. */
    method ReportStatus(status: DeviceStatus)
      requires Valid()
      modifies this`reports, this`pushed, this`tone, this`speaker
      ensures Valid() && speaker == (status.speaker && !status.failed)
      ensures tone == if speaker then old(tone) else ForceStop(old(tone)).tone
      ensures pushed == old(pushed)
        + AsReports(if speaker then [] else ForceStop(old(tone)).reports) + [Status(status)]
    {
      speaker := status.speaker && !status.failed;
      if !status.speaker || status.failed {
        SetToneOff();
      }
      assert pushed + [] == pushed;
      PushReport(Status(status));
    }

    method RequestTone(requestId: u32, enabled: bool, now: nat)
      requires Valid()
      modifies this`reports, this`pushed, this`tone
      ensures Valid() && tone == Request(requestId, enabled, speaker, now).tone
      ensures pushed == old(pushed) + AsReports(Request(requestId, enabled, speaker, now).reports)
    {
      var allowed := !enabled || speaker;
      tone := Model.Tone(
        TokenOf(requestId, enabled),
        if enabled && allowed then Some(now + TONE_MS) else None,
        requestId == 0 || !allowed);
      if !allowed && requestId != 0 {
        PushReport(Report.Tone(ToneState(requestId, false, true)));
      }
    }

    method SetTone(enabled: bool, now: nat)
      requires Valid()
      modifies this`reports, this`pushed, this`tone
      ensures Valid()
      ensures tone == (if enabled then Request(0, true, speaker, now) else ForceStop(old(tone))).tone
      ensures pushed == old(pushed)
        + AsReports((if enabled then Request(0, true, speaker, now) else ForceStop(old(tone))).reports)
    {
      if enabled {
        RequestTone(0, true, now);
        return;
      }
      SetToneOff();
    }

    method SetToneOff()
      requires Valid()
      modifies this`reports, this`pushed, this`tone
      ensures Valid() && tone == ForceStop(old(tone)).tone
      ensures pushed == old(pushed) + AsReports(ForceStop(old(tone)).reports)
    {
      var wasActive := tone.until.Some?;
      var requestId := IdOf(tone.token);
      tone := Model.Tone(Disabled(tone.token), None, tone.responded || wasActive);
      if wasActive && requestId != 0 {
        PushReport(Report.Tone(ToneState(requestId, false, true)));
      }
    }

    method ExpireTone(now: nat)
      requires Valid()
      modifies this`reports, this`pushed, this`tone
      ensures Valid() && tone == Expire(old(tone), now).tone
      ensures pushed == old(pushed) + AsReports(Expire(old(tone), now).reports)
    {
      if tone.until.Some? && now >= tone.until.value {
        var requestId := IdOf(tone.token);
        tone := Model.Tone(Disabled(tone.token), None, true);
        if requestId != 0 {
          PushReport(Report.Tone(ToneState(requestId, false, true)));
        }
      }
    }

    method PlaybackRequest(now: nat) returns (token: nat)
      requires Valid()
      modifies this`reports, this`pushed, this`tone
      ensures Valid() && tone == Expire(old(tone), now).tone && token == tone.token
      ensures pushed == old(pushed) + AsReports(Expire(old(tone), now).reports)
    {
      ExpireTone(now);
      return tone.token;
    }

    /** The expiry and the decision are two sections: `now` and `later` are read in each. */
    method ReportPlayback(token: Token, playing: bool, now: nat, later: nat)
      requires Valid() && now <= later
      modifies this`reports, this`pushed, this`tone
      ensures Valid() && tone == Playback(Expire(old(tone), now).tone, token, playing, later).tone
      ensures pushed == old(pushed) + AsReports(Expire(old(tone), now).reports)
        + AsReports(Playback(Expire(old(tone), now).tone, token, playing, later).reports)
    {
      ExpireTone(now);
      assert pushed + [] == pushed;
      if IdOf(token) == 0 || token != tone.token {
        return;
      }
      var enabled := Enabled(token);
      var active := tone.until.Some? && later < tone.until.value;
      if enabled && playing && active && !tone.responded {
        tone := tone.(until := Some(later + TONE_MS), responded := true);
        PushReport(Report.Tone(ToneState(IdOf(token), true, false)));
      } else if !enabled && !playing && !tone.responded {
        tone := tone.(responded := true);
        PushReport(Report.Tone(ToneState(IdOf(token), false, false)));
      } else if enabled && !playing && !active && (tone.until.Some? || !tone.responded) {
        tone := Model.Tone(Disabled(token), None, true);
        PushReport(Report.Tone(ToneState(IdOf(token), false, true)));
      }
    }

    method ToneActive(now: nat, later: nat) returns (active: bool)
      requires Valid() && now <= later
      modifies this`reports, this`pushed, this`tone
      ensures Valid() && tone == Expire(old(tone), now).tone && active == Active(tone, later)
      ensures pushed == old(pushed) + AsReports(Expire(old(tone), now).reports)
    {
      ExpireTone(now);
      return tone.until.Some? && later < tone.until.value;
    }

    method Reset()
      modifies this
      ensures Valid() && commands == [] && reports == [] && pushed == [] && !speaker
      ensures tone == Model.Tone(0, None, false)
    {
      tone := Model.Tone(0, None, false);
      speaker := false;
      commands, reports, pushed := [], [], [];
    }
  }
}
