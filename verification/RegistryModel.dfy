/** What the receiver registry does, as functions of its value
    (windows-server/src/application/registry.rs). */
module RegistryModel {
  import opened Numbers
  import opened ControlMessages
  import opened Text
  import opened VolumeProfiles

  const HISTORY := 32

  datatype Receiver = Receiver(
    controls: seq<ControlMessage>,  // queued for the phone, at most `capacity`
    capacity: nat,
    connected: bool,
    device: Option<DeviceStatus>,
    replies: map<nat, DeviceStatus>,
    playback: bool,
    unsolicited: Option<u16>,
    observed: Option<u16>,
    volumeRequests: set<nat>,
    panelBarrier: Option<nat>)

  datatype Registry = Registry(receivers: map<nat, Receiver>, nextId: nat, nextRequest: nat)

  datatype Requested = Requested(registry: Registry, request: Option<nat>)

  const EmptyRegistry := Registry(map[], 0, 1)

  function NewReceiver(capacity: nat): Receiver {
    Receiver([], capacity, true, None, map[], false, None, None, {}, None)
  }

  function Register(g: Registry, capacity: nat): Registry {
    g.(receivers := g.receivers[g.nextId := NewReceiver(capacity)], nextId := g.nextId + 1)
  }

  /** The reported devices, by receiver. */
  function Snapshots(g: Registry): map<nat, DeviceStatus> {
    map id | id in g.receivers && g.receivers[id].device.Some? :: g.receivers[id].device.value
  }

  function DenyAll(g: Registry): Registry {
    g.(receivers := map id | id in g.receivers :: g.receivers[id].(playback := false))
  }

  predicate StillAs(r: Receiver, expected: DeviceStatus) {
    && r.device.Some?
    && var actual := r.device.value;
    && actual.deviceId == expected.deviceId
    && actual.minimum == expected.minimum && actual.maximum == expected.maximum
    && actual.volume == expected.volume
    && actual.speaker && !actual.fixed && !actual.failed
  }

  predicate AllStillAs(g: Registry, expected: map<nat, DeviceStatus>) {
    forall id <- expected :: id in g.receivers && StillAs(g.receivers[id], expected[id])
  }

  /** Opens exactly the expected gates if every expected device is still as it was. */
  function Approve(g: Registry, expected: map<nat, DeviceStatus>): Registry {
    var ready := AllStillAs(g, expected);
    g.(receivers := map id | id in g.receivers :: g.receivers[id].(playback := ready && id in expected))
  }

  function Remove(g: Registry, id: nat): Registry {
    if id in g.receivers then DenyAll(g.(receivers := g.receivers - {id})) else g
  }

  // ------------------------------------------------------------------ requests

  ghost function Remember(requests: set<nat>, request: nat): set<nat> {
    (if |requests| >= HISTORY then requests - {Least(requests)} else requests) + {request}
  }

  predicate CanSend(r: Receiver) { r.connected && |r.controls| < r.capacity }

  ghost function SendVolume(r: Receiver, request: nat, index: u16, purpose: VolumePurpose, barrier: bool): Receiver {
    r.(controls := r.controls + [SetVolume(request, index, purpose)],
       volumeRequests := Remember(r.volumeRequests, request),
       panelBarrier := if barrier then Some(request) else r.panelBarrier,
       unsolicited := if barrier then None else r.unsolicited)
  }

  /** Queues a SetVolume under a fresh request id, if the receiver can take it. */
  ghost function VolumeRequest(g: Registry, id: nat, index: u16, purpose: VolumePurpose, barrier: bool): Requested {
    var next := g.(nextRequest := g.nextRequest + 1);
    if id in g.receivers && CanSend(g.receivers[id]) then
      var r := SendVolume(g.receivers[id], g.nextRequest, index, purpose, barrier);
      Requested(next.(receivers := g.receivers[id := r]), Some(g.nextRequest))
    else Requested(next, None)
  }

  ghost function PanelRequest(g: Registry, id: nat, index: u16): Requested {
    VolumeRequest(g, id, index, RestoreSpeaker, true)
  }

  ghost function RestoreRequest(g: Registry, id: nat, index: u16): Requested {
    VolumeRequest(g, id, index, RestoreSpeaker, false)
  }

  function Query(g: Registry, id: nat): Requested {
    var next := g.(nextRequest := g.nextRequest + 1);
    if id in g.receivers && CanSend(g.receivers[id]) then
      var r := g.receivers[id];
      Requested(next.(receivers := g.receivers[id := r.(controls := r.controls + [QueryDevice(g.nextRequest)])]),
                Some(g.nextRequest))
    else Requested(next, None)
  }

  function Offered(r: Receiver, message: ControlMessage): Receiver {
    if CanSend(r) then r.(controls := r.controls + [message]) else r
  }

  /** Offers a message to every receiver; one that cannot take it is skipped. */
  function Broadcast(g: Registry, message: ControlMessage): Registry {
    g.(receivers := map id | id in g.receivers :: Offered(g.receivers[id], message))
  }

  // ------------------------------------------------------------------- replies

  function Reply(g: Registry, id: nat, request: nat): Option<DeviceStatus> {
    if id in g.receivers && request in g.receivers[id].replies
    then Some(g.receivers[id].replies[request]) else None
  }

  function TakeReply(g: Registry, id: nat, request: nat): Registry {
    if id in g.receivers then
      var r := g.receivers[id];
      g.(receivers := g.receivers[id := r.(replies := r.replies - {request})])
    else g
  }

  function HasPanelBarrier(g: Registry, id: nat): bool {
    id in g.receivers && g.receivers[id].panelBarrier.Some?
  }

  function Unsolicited(g: Registry, id: nat): Option<u16> {
    if id in g.receivers then g.receivers[id].unsolicited else None
  }

  function TakeUnsolicited(g: Registry, id: nat): Registry {
    if id in g.receivers
    then g.(receivers := g.receivers[id := g.receivers[id].(unsolicited := None)]) else g
  }

  // ------------------------------------------------------------------- reports

  predicate InRange(status: DeviceStatus) {
    status.minimum <= status.volume <= status.maximum <= MAX_INDEX
  }

  predicate IsKeptInId(c: char) { IsAlphanumeric(c) || c == '-' }

  predicate IsKeptInName(c: char) { !IsControl(c) }

  function Sanitize(status: DeviceStatus): DeviceStatus {
    status.(name := Take(Filter(status.name, IsKeptInName), MAX_NAME),
            deviceId := Take(Filter(status.deviceId, IsKeptInId), MAX_NAME))
  }

  predicate SameDevice(r: Receiver, status: DeviceStatus) {
    && r.device.Some?
    && r.device.value.deviceId == status.deviceId
    && r.device.value.minimum == status.minimum && r.device.value.maximum == status.maximum
  }

  /** The reported state is the one already known, request id and name aside. */
  predicate Unchanged(r: Receiver, status: DeviceStatus) {
    && SameDevice(r, status)
    && r.device.value.volume == status.volume && r.device.value.speaker == status.speaker
    && r.device.value.failed == status.failed && r.device.value.fixed == status.fixed
  }

  /** Sorts a report into a device change, a volume moved at the phone, or a receipt. */
  function Classify(r: Receiver, status: DeviceStatus): Receiver {
    if !SameDevice(r, status) then
      r.(observed := Some(status.volume), unsolicited := None)
    else if status.requestId == 0 && !status.failed && !status.fixed && status.speaker then
      r.(observed := Some(status.volume),
         unsolicited := if r.panelBarrier.None? && r.observed.Some? && r.observed.value != status.volume
                        then Some(status.volume) else r.unsolicited)
    else
      var receipt := status.requestId in r.volumeRequests;
      r.(volumeRequests := r.volumeRequests - {status.requestId},
         observed := if receipt && (!status.failed || (!status.fixed && status.speaker))
                     then Some(status.volume) else r.observed)
  }

  ghost function StoreReply(replies: map<nat, DeviceStatus>, status: DeviceStatus): map<nat, DeviceStatus> {
    (if |replies| >= HISTORY then replies - {Least(replies.Keys)} else replies)[status.requestId := status]
  }

  /** One report, already sanitized, on the receiver it is from. */
  ghost function UpdateReceiver(r: Receiver, status: DeviceStatus): Receiver {
    var c := Classify(r, status);
    c.(panelBarrier := if c.panelBarrier == Some(status.requestId) then None else c.panelBarrier,
       playback := c.playback && Unchanged(r, status),
       device := Some(status),
       replies := if status.requestId != 0 then StoreReply(c.replies, status) else c.replies)
  }

  ghost function UpdateDevice(g: Registry, id: nat, status: DeviceStatus): Registry {
    if InRange(status) && id in g.receivers then
      g.(receivers := g.receivers[id := UpdateReceiver(g.receivers[id], Sanitize(status))])
    else g
  }

  // ---------------------------------------------------------- what the network does

  datatype NetEvent =
    | Join(capacity: nat)
    | Leave(id: nat)
    | Report(id: nat, status: DeviceStatus)
    | Transmitted(id: nat)                                   // the oldest queued message left
    | HungUp(id: nat)                                        // the session stopped taking messages
    | Polled(id: nat)                                        // the once-a-second device query
    | Commanded(id: nat, index: u16, purpose: VolumePurpose) // a manual or calibration command

  ghost function Apply(g: Registry, event: NetEvent): Registry {
    match event
    case Join(capacity) => Register(g, capacity)
    case Leave(id) => Remove(g, id)
    case Report(id, status) => UpdateDevice(g, id, status)
    case Transmitted(id) =>
      if id in g.receivers && g.receivers[id].controls != [] then
        g.(receivers := g.receivers[id := g.receivers[id].(controls := g.receivers[id].controls[1..])])
      else g
    case HungUp(id) =>
      if id in g.receivers then g.(receivers := g.receivers[id := g.receivers[id].(connected := false)]) else g
    case Polled(id) => Query(g, id).registry
    case Commanded(id, index, purpose) => VolumeRequest(g, id, index, purpose, false).registry
  }

  ghost function ApplyAll(g: Registry, events: seq<NetEvent>): Registry
    decreases |events|
  {
    if events == [] then g else ApplyAll(Apply(g, events[0]), events[1..])
  }
}
