/** The controller's operations call by call, with the network at work between any two calls
    (windows-server/src/application/volume_control.rs:121-133, 166-214 and 380-616). */
module InterleavedModel {
  import opened Numbers
  import opened ControlMessages
  import opened VolumeProfiles
  import opened RegistryModel
  import opened VolumeModel
  import opened VolumeRuns

  /** The calls of an operation to the registry. */
  datatype Call =
    | Snapshot
    | Judging
    | Taking(id: nat)
    | Barrier
    | PanelCall
    | TakingVolume
    | Restoring(i: nat)
    | Silencing
    | Cancelling
    | Gates
    | Ended

  /** What the network does before each call, and after the last. */
  type Net = Call -> seq<NetEvent>

  ghost function Amid(w: World, net: Net, call: Call): World {
    w.(registry := ApplyAll(w.registry, net(call)))
  }

  // ------------------------------------------------------------------------ tick

  /** The outstanding requests of the receivers below `n` judged one by one; `s` is the state
      before all judging. */
  ghost function Judged(g: Registry, s: State, ids: set<nat>, n: nat, now: nat, net: Net): (Registry, State) {
    if n == 0 then (g, s.(pending := map[], blocked := set id | id in s.blocked && id in ids)) else
    var (h, t) := Judged(g, s, ids, n - 1, now, net);
    if n - 1 !in s.pending || n - 1 !in ids then (h, t) else
    JudgedOne(ApplyAll(h, net(Taking(n - 1))), t, n - 1, s.pending[n - 1], now)
  }

  function JudgedOne(g: Registry, s: State, id: nat, p: Pending, now: nat): (Registry, State) {
    (TakeReply(g, id, p.request),
     match Judge(g, id, p, now)
     case Waiting => s.(pending := s.pending[id := p])
     case Done => s
     case Failed => s.(blocked := s.blocked + {id}))
  }

  ghost function Shut(w: World, net: Net): World {
    var amid := Amid(w, net, Gates);
    amid.(registry := DenyAll(amid.registry))
  }

  ghost function ServedAmid(v: Served, devices: map<nat, DeviceStatus>, targets: seq<(nat, u16)>, n: nat, now: nat,
                            net: Net): Served
    requires n <= |targets|
  {
    if n == 0 then v else
    var u := ServedAmid(v, devices, targets, n - 1, now, net);
    ServeOne(u.(registry := ApplyAll(u.registry, net(Restoring(n - 1)))), devices, targets[n - 1], now)
  }

  ghost function ServeAmid(w: World, p: Profile, master: nat, devices: map<nat, DeviceStatus>, index: u16,
                           now: nat, ioOk: bool, net: Net): World
  {
    var s := Follow(w.state, p, index, now);
    var targets := GroupTargets(p, master, devices, index);
    var v := ServedAmid(Served(w.registry, s.pending, s.blocked, true), devices, targets, |targets|, now, net);
    Conclude(w.(registry := v.registry, state := s.(pending := v.pending, blocked := v.blocked)),
             v.ready, p, index, Expected(devices, targets), TickInput(now, ioOk, [], net(Gates)))
  }

  ghost function DriveAmid(w: World, p: Profile, master: nat, devices: map<nat, DeviceStatus>,
                           now: nat, ioOk: bool, net: Net): World
  {
    var w := Amid(w, net, TakingVolume);
    match Nearest(p, Wanted(w.registry, w.state, p, master), Participating(p, devices))
    case None => Shut(Observe(w, master, devices), net)
    case Some(index) => ServeAmid(Observe(w, master, devices), p, master, devices, index, now, ioOk, net)
  }

  predicate IsFencing(w: World, master: nat) {
    (w.state.needsFence || HasPanelBarrier(w.registry, master)) && master !in w.state.pending
  }

  ghost function SteerAmid(w: World, devices: map<nat, DeviceStatus>, now: nat, ioOk: bool, net: Net): World {
    match Current(w.state.library)
    case None => Shut(w, net)
    case Some(p) =>
      var masters := MatchingIds(p.master, devices);
      if |masters| != 1 then Shut(w.(state := w.state.(masterSeen := None)), net) else
      var master, w := Least(masters), Amid(w, net, Barrier);
      if IsFencing(w, master) then Fence(Amid(Shut(w, net), net, PanelCall), p, master, devices, now)
      else DriveAmid(w, p, master, devices, now, ioOk, net)
  }

  ghost function TickAmid(w: World, now: nat, ioOk: bool, net: Net): World {
    if w.state.editing then Shut(w, net) else
    var w := Amid(w, net, Snapshot);
    var devices, ids := Snapshots(w.registry), w.registry.receivers.Keys;
    var (g, s) := Judged(ApplyAll(w.registry, net(Judging)), w.state, ids, w.registry.nextId, now, net);
    Amid(SteerAmid(w.(registry := g, state := s), devices, now, ioOk, net), net, Ended)
  }

  // ----------------------------------------------------------- the other operations

  ghost function OpenAmid(w: World, net: Net): Outcome {
    var outcome, seen := Open(Amid(w, net, Snapshot)), Amid(w, net, Snapshot);
    if !outcome.ok then Outcome(w, false)
    else Outcome(outcome.world.(registry := DenyAll(ApplyAll(seen.registry, net(Gates)))), true)
  }

  ghost function RestoredAmid(g: Registry, originals: seq<(nat, DeviceStatus)>, n: nat, now: nat, net: Net)
    : (Registry, map<nat, Pending>)
    requires n <= |originals|
  {
    if n == 0 then (g, map[]) else
    var (h, pending) := RestoredAmid(g, originals, n - 1, now, net);
    var (id, original) := originals[n - 1];
    var r := RestoreRequest(ApplyAll(h, net(Restoring(n - 1))), id, original.volume);
    (r.registry,
     if r.request.Some? then pending[id := Pending(r.request.value, original.volume, now)] else pending)
  }

  ghost function CloseAmid(w: World, now: nat, net: Net): World {
    var g := Broadcast(ApplyAll(w.registry, net(Silencing)), CalibrationTone(0, false));
    var g := Broadcast(ApplyAll(g, net(Cancelling)), CalibrationSession(0, Cancel));
    var (registry, pending) := RestoredAmid(g, w.state.originals, |w.state.originals|, now, net);
    w.(registry := registry,
       state := w.state.(pending := pending, originals := [], editing := false, draft := None,
                         masterSeen := None, blocked := {}))
  }

  /** The master and the volume that a request from the panel comes to. */
  ghost function Chosen(l: Library, devices: map<nat, DeviceStatus>, requested: u16): Option<(nat, u16)> {
    match Current(l)
    case None => None
    case Some(p) =>
      var masters := MatchingIds(p.master, devices);
      if |masters| != 1 then None else
      match Nearest(p, requested, Participating(p, devices))
      case None => None
      case Some(index) => Some((Least(masters), index))
  }

  ghost function SetAmid(w: World, master: nat, index: u16, now: nat, net: Net): Outcome
    requires Current(w.state.library).Some?
  {
    var s, w := w.state, Amid(w, net, PanelCall);
    var r := PanelRequest(w.registry, master, index);
    if r.request.None? then Outcome(w.(registry := r.registry), false) else
    Outcome(w.(registry := DenyAll(ApplyAll(r.registry, net(Gates))),
               state := s.(library := WithVolume(s.library, Current(s.library).value.id, index),
                           needsFence := false, blocked := {}, dirty := true, changed := now,
                           pending := s.pending[master := Pending(r.request.value, index, now)])), true)
  }

  ghost function RequestVolumeAmid(w: World, requested: u16, now: nat, net: Net): Outcome {
    if w.state.editing then Outcome(w, false) else
    var w := Amid(w, net, Snapshot);
    match Chosen(w.state.library, Snapshots(w.registry), requested)
    case None => Outcome(w, false)
    case Some((master, index)) => SetAmid(w, master, index, now, net)
  }

  ghost function ShutDownAmid(w: World, net: Net): World {
    var g := DenyAll(ApplyAll(w.registry, net(Gates)));
    var g := Broadcast(ApplyAll(g, net(Cancelling)), CalibrationSession(0, Cancel));
    w.(registry := Broadcast(ApplyAll(g, net(Silencing)), CalibrationTone(0, false)))
  }

  // ------------------------------------------------------------------------ runs

  /** Operations with more than one call to the registry, and any other event. */
  datatype AmidEvent =
    | Whole(event: Event)
    | Ticks(now: nat, ioOk: bool, net: Net)
    | Opens(net: Net)
    | Closes(now: nat, net: Net)
    | Sets(requested: u16, now: nat, net: Net)
    | ShutsDown(net: Net)

  ghost function NextAmid(w: World, e: AmidEvent): World {
    match e
    case Whole(event) => Next(w, event)
    case Ticks(now, ioOk, net) => TickAmid(w, now, ioOk, net)
    case Opens(net) => OpenAmid(w, net).world
    case Closes(now, net) => CloseAmid(w, now, net)
    case Sets(requested, now, net) => RequestVolumeAmid(w, requested, now, net).world
    case ShutsDown(net) => ShutDownAmid(w, net)
  }

  ghost function RunAmid(w: World, events: seq<AmidEvent>): World {
    if events == [] then w
    else NextAmid(RunAmid(w, events[..|events| - 1]), events[|events| - 1])
  }

  predicate Numbered(g: Registry) {
    forall id <- g.receivers :: id < g.nextId
  }
}
