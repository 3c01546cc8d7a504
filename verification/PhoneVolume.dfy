/** A phone's volume control (android/app/src/main/java/com/example/audiostream/DeviceVolumeControl.kt). */
module PhoneVolume {
  import opened Numbers
  import opened Model = PhoneModel
  import D = DeviceControl

  class DeviceVolumeControl {
    var originalVolume: Option<int>
    var deadline: nat
    var reportedVolume: int
    /** The media volume of the phone. */
    var stream: int

    ghost function View(): Phone
      reads this
    {
      Phone(originalVolume, deadline, reportedVolume, stream)
    }

    constructor (stream: int)
      ensures View() == Phone(None, 0, -1, stream)
    {
      originalVolume, deadline, reportedVolume := None, 0, -1;
      this.stream := stream;
    }

    method CancelCalibration(e: Surroundings) returns (ok: bool)
      modifies this`originalVolume, this`stream
      ensures Cancelled(View(), ok) == Model.CancelCalibration(old(View()), e)
    {
      if originalVolume.None? {
        return true;
      }
      var original := originalVolume.value;
      originalVolume := None;
      if !OnSpeaker(e) || e.setThrows {
        return false;
      }
      stream := Landed(e, original);
      return e.readable && stream == original;
    }

    method Report(requestId: nat, failed: bool, observe: bool, commandVolume: Option<int>, e: Surroundings)
      returns (replies: seq<Reply>)
      modifies this`reportedVolume
      ensures Reported(View(), replies) == Model.Report(old(View()), requestId, failed, observe, commandVolume, e)
    {
      if !e.readable || e.speaker.None? {
        return [Reply(requestId, 0, 0, 0, true, false, true)];
      }
      var volume := if commandVolume.Some? then commandVolume.value else stream;
      var reply := Reply(requestId, volume, e.minimum, e.maximum, e.fixed, OnSpeaker(e), failed);
      replies := [];
      if observe && !failed && requestId != 0 && reportedVolume >= 0 && volume != reportedVolume {
        replies := [reply.(requestId := 0)];
      }
      if !failed || commandVolume.Some? {
        reportedVolume := volume;
      }
      replies := replies + [reply];
    }

    /** One turn of the command loop. */
    method ApplyOne(c: Command, e: Phases) returns (replies: seq<Reply>)
      modifies this
      ensures Reported(View(), replies) == Apply(old(View()), c, e)
    {
      var failed, restoredExpiredCalibration := false, false;
      if originalVolume.Some? && e.expiry.now >= deadline {
        restoredExpiredCalibration := true;
        var ok := CancelCalibration(e.expiry);
        failed := !ok;
      }
      var commandVolume;
      failed, commandVolume := Operate(c, failed, e.action);
      replies := Report(c.requestId, failed, c.operation == 1 && !restoredExpiredCalibration, commandVolume, e.report);
    }

    method Operate(c: Command, failedBefore: bool, e: Surroundings) returns (failed: bool, commandVolume: Option<int>)
      modifies this
      ensures Operation(View(), failed, commandVolume)
              == Model.Operate(old(View()), c.operation, c.value, failedBefore, e)
    {
      failed, commandVolume := failedBefore, None;
      match c.operation {
        case 1 =>
          if originalVolume.Some? {
            deadline := e.now + SESSION_MS;
          }
        case 2 => failed, commandVolume := SetVolumeTo(2, c.value, e);
        case 6 => failed, commandVolume := SetVolumeTo(6, c.value, e);
        case 7 => failed, commandVolume := SetVolumeTo(7, c.value, e);
        case 3 =>
          if e.fixed || !OnSpeaker(e) || (originalVolume.None? && !e.readable) {
            failed := true;
          } else {
            if originalVolume.None? {
              originalVolume := Some(stream);
            }
            deadline := e.now + SESSION_MS;
          }
        case 4 =>
          var ok := CancelCalibration(e);
          failed := !ok;
        case 8 => failed := true;
        case 5 =>
          if originalVolume.None? || !OnSpeaker(e) || !e.readable || stream != c.value {
            failed := true;
          } else {
            originalVolume := None;
          }
        case _ =>
      }
    }

    method SetVolumeTo(operation: nat, value: u16, e: Surroundings)
      returns (failed: bool, commandVolume: Option<int>)
      modifies this`stream
      ensures Operation(View(), failed, commandVolume)
              == Model.SetVolumeTo(old(View()), operation, value, e)
    {
      if e.fixed || (operation != 2 && !OnSpeaker(e)) || (operation == 6 && originalVolume.None?)
        || (originalVolume.Some? && !OnSpeaker(e)) || e.minimum > e.maximum || e.setThrows
      {
        return true, None;
      }
      var index := Coerce(value, e.minimum, e.maximum);
      stream := Landed(e, index);
      if !e.readable {
        return true, None;
      }
      return stream != index, Some(stream);
    }

    /** Commands are taken until none is left; a taken 0 means none. */
    method ApplyPending(commands: seq<nat>, phases: nat -> Phases) returns (replies: seq<Reply>)
      modifies this
      ensures Reported(View(), replies) == ApplyAll(old(View()), commands, phases)
    {
      replies := [];
      var j := 0;
      while j < |commands| && commands[j] != 0
        invariant Continues(old(View()), commands, phases, View(), replies, j)
      {
        ContinuesOn(old(View()), commands, phases, View(), replies, j);
        var more := ApplyOne(Decode(commands[j]), phases(j));
        replies := replies + more;
        j := j + 1;
      }
      assert replies + [] == replies;
    }
  }

  /** After `j` commands the phone is `p` and has sent `replies`. */
  predicate Continues(start: Phone, commands: seq<nat>, phases: nat -> Phases, p: Phone, replies: seq<Reply>, j: nat) {
    && j <= |commands|
    && var rest := ApplyFrom(p, commands, phases, j);
       ApplyAll(start, commands, phases) == Reported(rest.phone, replies + rest.replies)
  }

  lemma ContinuesOn(start: Phone, commands: seq<nat>, phases: nat -> Phases, p: Phone, replies: seq<Reply>, j: nat)
    requires Continues(start, commands, phases, p, replies, j) && j < |commands| && commands[j] != 0
    ensures var next := Apply(p, Decode(commands[j]), phases(j));
            Continues(start, commands, phases, next.phone, replies + next.replies, j + 1)
  {
    var next := Apply(p, Decode(commands[j]), phases(j));
    var rest := ApplyFrom(next.phone, commands, phases, j + 1).replies;
    assert replies + (next.replies + rest) == (replies + next.replies) + rest;
  }

  /** The fields of a command number. */
  function Decode(command: nat): Command {
    Command(command / 0x100_0000, command / 0x1_0000 % 0x100, command % 0x1_0000)
  }

  /** The Kotlin side reads what the native side queued. */
  lemma DecodesCode(c: D.Command)
    ensures Decode(D.Code(c)) == Command(c.requestId, c.operation, c.value)
  {
    D.CodeIsReadBack(c);
  }

  /** The commands up to the first 0, one after the other. */
  function ApplyAll(p: Phone, commands: seq<nat>, phases: nat -> Phases): Reported {
    ApplyFrom(p, commands, phases, 0)
  }

  function ApplyFrom(p: Phone, commands: seq<nat>, phases: nat -> Phases, j: nat): Reported
    requires j <= |commands|
    decreases |commands| - j
  {
    if j == |commands| || commands[j] == 0 then Reported(p, []) else
    var first := Apply(p, Decode(commands[j]), phases(j));
    var rest := ApplyFrom(first.phone, commands, phases, j + 1);
    Reported(rest.phone, first.replies + rest.replies)
  }

  /** One command more: a 0 ends the loop, and so whatever comes after it waits; any other acts on
      the phone that the commands before it left, and is answered after them. */
  lemma {:induction false} CommandsActInTurn(p: Phone, commands: seq<nat>, phases: nat -> Phases, command: nat)
    ensures var before, all := ApplyAll(p, commands, phases), ApplyAll(p, commands + [command], phases);
            if command == 0 || 0 in commands then all == before
            else
              var last := Apply(before.phone, Decode(command), phases(|commands|));
              all == Reported(last.phone, before.replies + last.replies)
  {
    OneCommandMore(p, commands, phases, command, 0);
  }

  lemma {:induction false} OneCommandMore(p: Phone, commands: seq<nat>, phases: nat -> Phases, command: nat, j: nat)
    requires j <= |commands|
    ensures var before, all := ApplyFrom(p, commands, phases, j), ApplyFrom(p, commands + [command], phases, j);
            if command == 0 || 0 in commands[j..] then all == before
            else
              var last := Apply(before.phone, Decode(command), phases(|commands|));
              all == Reported(last.phone, before.replies + last.replies)
    decreases |commands| - j
  {
    hide Apply, Decode;
    var more := commands + [command];
    if j < |commands| {
      assert more[j] == commands[j] && commands[j..] == [commands[j]] + commands[j + 1..];
      if commands[j] != 0 {
        var first := Apply(p, Decode(commands[j]), phases(j));
        OneCommandMore(first.phone, commands, phases, command, j + 1);
        var rest := ApplyFrom(first.phone, commands, phases, j + 1);
        Regroup(first.replies, rest.replies, Apply(rest.phone, Decode(command), phases(|commands|)).replies);
      }
    } else {
      assert more[j] == command && |more| == j + 1;
      if command != 0 {
        var last := Apply(p, Decode(command), phases(j));
        assert ApplyFrom(last.phone, more, phases, j + 1) == Reported(last.phone, []);
        assert last.replies + [] == last.replies && [] + last.replies == last.replies;
      }
    }
  }

  lemma Regroup<T>(a: seq<T>, b: seq<T>, c: seq<T>)
    ensures a + b + c == a + (b + c)
  {
  }
}
