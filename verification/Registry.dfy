/** The connected receivers (windows-server/src/application/registry.rs). */
module Registry {
  import opened Numbers
  import opened ControlMessages
  import opened VolumeProfiles
  import Model = RegistryModel
  import opened RegistryModel

  class ReceiverRegistry {
    var receivers: map<nat, Receiver>
    var nextId: nat
    var nextRequest: nat

    ghost function View(): Model.Registry
      reads this
    {
      Model.Registry(receivers, nextId, nextRequest)
    }

    constructor ()
      ensures View() == EmptyRegistry
    {
      receivers, nextId, nextRequest := map[], 0, 1;
    }

    method Register(capacity: nat) returns (id: nat)
      modifies this
      ensures View() == Model.Register(old(View()), capacity) && id == old(nextId)
    {
      id := nextId;
      nextId := nextId + 1;
      receivers := receivers[id := NewReceiver(capacity)];
    }

    method DenyAll()
      modifies this`receivers
      ensures View() == Model.DenyAll(old(View()))
    {
      var rest := receivers.Keys;
      while rest != {}
        invariant rest <= receivers.Keys == old(receivers).Keys
        invariant forall id <- receivers ::
          receivers[id] == if id in rest then old(receivers)[id] else old(receivers)[id].(playback := false)
        decreases rest
      {
        var id :| id in rest;
        rest := rest - {id};
        receivers := receivers[id := receivers[id].(playback := false)];
      }
      assert receivers == Model.DenyAll(old(View())).receivers;
    }

    method Approve(expected: map<nat, DeviceStatus>)
      modifies this`receivers
      ensures View() == Model.Approve(old(View()), expected)
    {
      var ready := AllStillAs(Model.Registry(receivers, nextId, nextRequest), expected);
      var rest := receivers.Keys;
      while rest != {}
        invariant rest <= receivers.Keys == old(receivers).Keys
        invariant forall id <- receivers ::
          receivers[id] == if id in rest then old(receivers)[id]
                           else old(receivers)[id].(playback := ready && id in expected)
        decreases rest
      {
        var id :| id in rest;
        rest := rest - {id};
        receivers := receivers[id := receivers[id].(playback := ready && id in expected)];
      }
      assert receivers == Model.Approve(old(View()), expected).receivers;
    }

    method Remove(id: nat)
      modifies this`receivers
      ensures View() == Model.Remove(old(View()), id)
    {
      if id in receivers {
        receivers := receivers - {id};
        DenyAll();
      }
    }

    method VolumeRequestWithBarrier(id: nat, index: u16, purpose: VolumePurpose, barrier: bool)
      returns (request: Option<nat>)
      modifies this`receivers, this`nextRequest
      ensures Requested(View(), request) == VolumeRequest(old(View()), id, index, purpose, barrier)
    {
      var requestId := nextRequest;
      nextRequest := nextRequest + 1;
      if id !in receivers || !CanSend(receivers[id]) {
        return None;
      }
      var receiver := receivers[id];
      receiver := receiver.(controls := receiver.controls + [SetVolume(requestId, index, purpose)]);
      if |receiver.volumeRequests| >= HISTORY {
        var oldest := FindLeast(receiver.volumeRequests);
        receiver := receiver.(volumeRequests := receiver.volumeRequests - {oldest});
      }
      receiver := receiver.(volumeRequests := receiver.volumeRequests + {requestId});
      if barrier {
        receiver := receiver.(panelBarrier := Some(requestId), unsolicited := None);
      }
      receivers := receivers[id := receiver];
      return Some(requestId);
    }

    method TakeReply(id: nat, request: nat) returns (reply: Option<DeviceStatus>)
      modifies this`receivers
      ensures View() == Model.TakeReply(old(View()), id, request)
      ensures reply == Reply(old(View()), id, request)
    {
      if id !in receivers {
        return None;
      }
      var receiver := receivers[id];
      reply := if request in receiver.replies then Some(receiver.replies[request]) else None;
      receivers := receivers[id := receiver.(replies := receiver.replies - {request})];
    }

    method HasPanelBarrier(id: nat) returns (held: bool)
      ensures held == Model.HasPanelBarrier(View(), id)
    {
      held := id in receivers && receivers[id].panelBarrier.Some?;
    }

    method TakeUnsolicitedVolume(id: nat) returns (volume: Option<u16>)
      modifies this`receivers
      ensures View() == TakeUnsolicited(old(View()), id) && volume == Unsolicited(old(View()), id)
    {
      if id !in receivers {
        return None;
      }
      volume := receivers[id].unsolicited;
      receivers := receivers[id := receivers[id].(unsolicited := None)];
    }

    method UpdateDevice(id: nat, status: DeviceStatus)
      modifies this`receivers
      ensures View() == Model.UpdateDevice(old(View()), id, status)
    {
      if !InRange(status) || id !in receivers {
        return;
      }
      var receiver := Refresh(receivers[id], Sanitize(status));
      receivers := receivers[id := receiver];
    }

    static method Refresh(known: Receiver, status: DeviceStatus) returns (receiver: Receiver)
      ensures receiver == UpdateReceiver(known, status)
    {
      receiver := ClassifyReport(known, status);
      var asKnown := Unchanged(receiver, status);
      var replies := receiver.replies;
      if status.requestId != 0 {
        if |replies| >= HISTORY {
          var oldest := FindLeast(replies.Keys);
          replies := replies - {oldest};
        }
        replies := replies[status.requestId := status];
      }
      receiver := receiver.(
        panelBarrier := if receiver.panelBarrier == Some(status.requestId) then None else receiver.panelBarrier,
        playback := receiver.playback && asKnown,
        device := Some(status),
        replies := replies);
    }

    /** The first half of an update: what the report says about the volume. */
    static method ClassifyReport(known: Receiver, status: DeviceStatus) returns (receiver: Receiver)
      ensures receiver == Classify(known, status)
    {
      receiver := known;
      if !SameDevice(receiver, status) {
        receiver := receiver.(observed := Some(status.volume), unsolicited := None);
      } else if status.requestId == 0 && !status.failed && !status.fixed && status.speaker {
        if receiver.panelBarrier.None? && receiver.observed.Some? && receiver.observed.value != status.volume {
          receiver := receiver.(unsolicited := Some(status.volume));
        }
        receiver := receiver.(observed := Some(status.volume));
      } else if status.requestId in receiver.volumeRequests {
        receiver := receiver.(volumeRequests := receiver.volumeRequests - {status.requestId});
        if !status.failed || (!status.fixed && status.speaker) {
          receiver := receiver.(observed := Some(status.volume));
        }
      } else {
        assert receiver.volumeRequests - {status.requestId} == receiver.volumeRequests;
      }
    }

    method Broadcast(message: ControlMessage)
      modifies this`receivers
      ensures View() == Model.Broadcast(old(View()), message)
    {
      var rest := receivers.Keys;
      while rest != {}
        invariant rest <= receivers.Keys == old(receivers).Keys
        invariant forall id <- receivers ::
          receivers[id] == if id in rest then old(receivers)[id] else Offered(old(receivers)[id], message)
        decreases rest
      {
        var id :| id in rest;
        rest := rest - {id};
        receivers := receivers[id := Offered(receivers[id], message)];
      }
      assert receivers == Model.Broadcast(old(View()), message).receivers;
    }

    method Query(id: nat) returns (request: Option<nat>)
      modifies this`receivers, this`nextRequest
      ensures Requested(View(), request) == Model.Query(old(View()), id)
    {
      var requestId := nextRequest;
      nextRequest := nextRequest + 1;
      if id !in receivers || !CanSend(receivers[id]) {
        return None;
      }
      receivers := receivers[id := receivers[id].(controls := receivers[id].controls + [QueryDevice(requestId)])];
      return Some(requestId);
    }

    /** What the session tasks of the phones do to the registry. */
    method Handle(event: NetEvent)
      modifies this
      ensures View() == Apply(old(View()), event)
    {
      match event
      case Join(capacity) => var _ := Register(capacity);
      case Leave(id) => Remove(id);
      case Report(id, status) => UpdateDevice(id, status);
      case Transmitted(id) =>
        if id in receivers && receivers[id].controls != [] {
          receivers := receivers[id := receivers[id].(controls := receivers[id].controls[1..])];
        }
      case HungUp(id) =>
        if id in receivers {
          receivers := receivers[id := receivers[id].(connected := false)];
        }
      case Polled(id) => var _ := Query(id);
      case Commanded(id, index, purpose) => var _ := VolumeRequestWithBarrier(id, index, purpose, false);
    }

    method HandleAll(events: seq<NetEvent>)
      modifies this
      ensures View() == ApplyAll(old(View()), events)
    {
      for i := 0 to |events|
        invariant ApplyAll(View(), events[i..]) == ApplyAll(old(View()), events)
      {
        Handle(events[i]);
        assert events[i..][1..] == events[i + 1..];
      }
    }
  }
}
