/** How receivers come and go, and what is sent to them
    (windows-server/src/application/registry.rs:65-319 and 391-408). */
module ReceiverTraffic {
  import opened Numbers
  import opened ControlMessages
  import opened VolumeProfiles
  import opened RegistryModel

  /** A receiver that joins gets an id of its own and begins with nothing: no device, no message, no
      request, and its gate shut. */
  lemma JoiningIsFresh(g: Registry, capacity: nat)
    requires forall id <- g.receivers :: id < g.nextId
    ensures var h, r := Register(g, capacity), Register(g, capacity).receivers[g.nextId];
            && h.receivers == g.receivers[g.nextId := r] && g.nextId !in g.receivers
            && h.nextId == g.nextId + 1 && h.nextRequest == g.nextRequest
            && r.controls == [] && r.capacity == capacity && r.connected && !r.playback && r.device.None?
            && r.replies == map[] && r.volumeRequests == {}
            && r.unsolicited.None? && r.observed.None? && r.panelBarrier.None?
  {
  }

  /** One that leaves takes every open gate with it. */
  lemma LeavingShutsAll(g: Registry, id: nat)
    ensures var h := Remove(g, id);
            if id !in g.receivers then h == g
            else
              && h.nextId == g.nextId && h.nextRequest == g.nextRequest
              && h.receivers.Keys == g.receivers.Keys - {id}
              && forall other <- h.receivers :: h.receivers[other] == g.receivers[other].(playback := false)
  {
  }

  predicate CanTake(g: Registry, id: nat) {
    id in g.receivers && g.receivers[id].connected && |g.receivers[id].controls| < g.receivers[id].capacity
  }

  /** A volume request takes a fresh number in any case. It is queued last, exactly if the receiver
      can take it; then its receipt is awaited, and a barrier, if it is one, replaces the one before
      and drops a stored press. */
  lemma RequestIsQueued(g: Registry, id: nat, index: u16, purpose: VolumePurpose, barrier: bool)
    ensures var q := VolumeRequest(g, id, index, purpose, barrier);
            && q.registry.nextRequest == g.nextRequest + 1 && q.registry.nextId == g.nextId
            && (q.request == if CanTake(g, id) then Some(g.nextRequest) else None)
            && (!CanTake(g, id) ==> q.registry.receivers == g.receivers)
            && (CanTake(g, id) ==>
                  var r, s := g.receivers[id], q.registry.receivers[id];
                  && q.registry.receivers == g.receivers[id := s]
                  && s.controls == r.controls + [SetVolume(g.nextRequest, index, purpose)]
                  && s.panelBarrier == (if barrier then Some(g.nextRequest) else r.panelBarrier)
                  && s.unsolicited == (if barrier then None else r.unsolicited)
                  && AwaitsAlso(r.volumeRequests, s.volumeRequests, g.nextRequest)
                  && s == r.(controls := s.controls, volumeRequests := s.volumeRequests,
                             panelBarrier := s.panelBarrier, unsolicited := s.unsolicited))
  {
  }

  /** `request` is awaited too; of 32 or more the oldest makes room. */
  ghost predicate AwaitsAlso(before: set<nat>, after: set<nat>, request: nat) {
    && request in after && after <= before + {request}
    && (|before| < 32 ==> after == before + {request})
    && (|before| >= 32 ==> exists oldest <- before :: (forall k <- before :: oldest <= k)
                                                    && after == before - {oldest} + {request})
  }

  /** So are a query and the offer of a message to everybody. */
  lemma QueryIsQueued(g: Registry, id: nat)
    ensures var q := Query(g, id);
            && q.registry.nextRequest == g.nextRequest + 1 && q.registry.nextId == g.nextId
            && (q.request == if CanTake(g, id) then Some(g.nextRequest) else None)
            && q.registry.receivers.Keys == g.receivers.Keys
            && forall other <- g.receivers ::
                 q.registry.receivers[other]
                 == if other == id && CanTake(g, id) then
                      g.receivers[id].(controls := g.receivers[id].controls + [QueryDevice(g.nextRequest)])
                    else g.receivers[other]
  {
  }

  lemma BroadcastReachesAll(g: Registry, message: ControlMessage)
    ensures var h := Broadcast(g, message);
            && h == g.(receivers := h.receivers) && h.receivers.Keys == g.receivers.Keys
            && forall id <- g.receivers ::
                 h.receivers[id]
                 == if CanTake(g, id) then g.receivers[id].(controls := g.receivers[id].controls + [message])
                    else g.receivers[id]
  {
  }

  /** An answer that waits is handed out once, and so is a press; neither touches anything else. */
  lemma AnswersAreTakenOnce(g: Registry, id: nat, request: nat)
    ensures var h := TakeReply(g, id, request);
            && Reply(h, id, request).None?
            && (forall other, r :: other != id || r != request ==> Reply(h, other, r) == Reply(g, other, r))
            && (Reply(g, id, request).Some? <==>
                  id in g.receivers && request in g.receivers[id].replies)
            && (Reply(g, id, request).Some? ==>
                  Reply(g, id, request).value == g.receivers[id].replies[request])
            && h == g.(receivers := h.receivers) && h.receivers.Keys == g.receivers.Keys
            && forall other <- g.receivers ::
                 h.receivers[other] == g.receivers[other].(replies := h.receivers[other].replies)
  {
  }

  lemma PressesAreTakenOnce(g: Registry, id: nat)
    ensures var h := TakeUnsolicited(g, id);
            && Unsolicited(h, id).None? && h == g.(receivers := h.receivers)
            && h.receivers.Keys == g.receivers.Keys
            && Unsolicited(g, id) == (if id in g.receivers then g.receivers[id].unsolicited else None)
            && forall other <- g.receivers ::
                 h.receivers[other]
                 == if other == id then g.receivers[id].(unsolicited := None) else g.receivers[other]
  {
  }

  /** Gates open all at once or not at all: each expected phone must still be the same device at the
      same volume, on its speaker, adjustable and not failed. */
  lemma ApprovalIsExact(g: Registry, expected: map<nat, DeviceStatus>)
    ensures var h := Approve(g, expected);
            var still := forall id <- expected :: id in g.receivers && IsStill(g.receivers[id], expected[id]);
            && h == g.(receivers := h.receivers) && h.receivers.Keys == g.receivers.Keys
            && forall id <- g.receivers :: h.receivers[id] == g.receivers[id].(playback := still && id in expected)
  {
    assert forall id <- expected :: id in g.receivers ==>
      (IsStill(g.receivers[id], expected[id]) <==> StillAs(g.receivers[id], expected[id]));
  }

  predicate IsStill(r: Receiver, d: DeviceStatus) {
    && r.device.Some? && r.device.value.deviceId == d.deviceId && r.device.value.volume == d.volume
    && r.device.value.minimum == d.minimum && r.device.value.maximum == d.maximum
    && r.device.value.speaker && !r.device.value.fixed && !r.device.value.failed
  }
}
