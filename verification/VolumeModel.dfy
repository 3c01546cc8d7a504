/** What the volume controller does, as functions of its state, the registry and the library file. Every operation is
    one atomic step; `now` is a clock in milliseconds (windows-server/src/application/volume_control.rs). */
module VolumeModel {
  import opened Numbers
  import opened ControlMessages
  import opened Text
  import opened VolumeProfiles
  import opened RegistryModel

  const CONFIRM_TIMEOUT := 4000
  const SAVE_DELAY := 500
  const RETRY_DELAY := 4000

  datatype Pending = Pending(request: nat, index: u16, at: nat)

  datatype State = State(
    library: Library,
    draft: Option<Profile>,
    editing: bool,
    originals: seq<(nat, DeviceStatus)>,
    pending: map<nat, Pending>,
    blocked: set<nat>,
    masterSeen: Option<(nat, u16)>,
    dirty: bool,
    changed: nat,
    confirmed: Option<(u64, u16)>,
    loadError: bool,
    needsFence: bool)

  /** `saves` lists every library handed to `save`, successfully or not. */
  datatype World = World(registry: Registry, state: State, saves: seq<Library>)

  datatype Outcome = Outcome(world: World, ok: bool)

  function ConfirmedOf(l: Library): Option<(u64, u16)> {
    match Current(l)
    case None => None
    case Some(p) => Some((p.id, p.volume))
  }

  function NewState(l: Library, loadError: bool): State {
    State(l, None, false, [], map[], {}, None, false, 0, ConfirmedOf(l), loadError, false)
  }

  /** The library with the active profile at its last confirmed volume. */
  function Persisted(s: State): Library {
    match s.confirmed
    case None => s.library
    case Some((id, index)) => WithVolume(s.library, id, index)
  }

  /** `Instant::elapsed` is zero for an instant in the future. */
  function Elapsed(now: nat, at: nat): nat { if now >= at then now - at else 0 }

  // ------------------------------------------------------------------- editing

  function Open(w: World): Outcome {
    var s := w.state;
    if s.editing || s.pending != map[] then Outcome(w, false) else
    var s := s.(editing := true, draft := Current(s.library), blocked := {},
                originals := Originals(Snapshots(w.registry), w.registry.nextId));
    Outcome(w.(registry := DenyAll(w.registry), state := s), true)
  }

  /** The snapshot as a list in ascending receiver order. */
  function Originals(devices: map<nat, DeviceStatus>, bound: nat): seq<(nat, DeviceStatus)> {
    if bound == 0 then [] else
    Originals(devices, bound - 1) + if bound - 1 in devices then [(bound - 1, devices[bound - 1])] else []
  }

  /** Asks every remembered device back to its volume. */
  ghost function RestoreOriginals(
    g: Registry, pending: map<nat, Pending>, originals: seq<(nat, DeviceStatus)>, now: nat)
    : (Registry, map<nat, Pending>)
    decreases |originals|
  {
    if originals == [] then (g, pending) else
    var (id, original) := originals[0];
    var r := RestoreRequest(g, id, original.volume);
    RestoreOriginals(r.registry,
                     if r.request.Some? then pending[id := Pending(r.request.value, original.volume, now)] else pending,
                     originals[1..], now)
  }

  ghost function Close(w: World, now: nat): World {
    var g := Broadcast(w.registry, CalibrationTone(0, false));
    var g := Broadcast(g, CalibrationSession(0, Cancel));
    var (registry, pending) := RestoreOriginals(g, map[], w.state.originals, now);
    w.(registry := registry,
       state := w.state.(pending := pending, originals := [], editing := false, draft := None,
                         masterSeen := None, blocked := {}))
  }

  function RememberDevice(w: World, id: nat, device: DeviceStatus): World {
    if w.state.editing && forall o <- w.state.originals :: o.0 != id
    then w.(state := w.state.(originals := w.state.originals + [(id, device)]))
    else w
  }

  /** set_master, new_draft, edit and set_draft: anything may become the draft while editing. */
  function EditDraft(w: World, draft: Option<Profile>): Outcome {
    if !w.state.editing then Outcome(w, false)
    else Outcome(w.(state := w.state.(draft := draft)), true)
  }

  // ------------------------------------------------------------------- library

  function Calibrated(p: Profile): set<string> {
    set f | f in p.followers && f.mapping != map[] :: f.device.id
  }

  /** The profile a save stores: trimmed name, a calibrated volume, a new id for a copy. */
  function SavedDraft(draft: Profile, name: string, copy: bool): Option<Profile> {
    var draft := draft.(name := Trim(name), id := if copy then 0 else draft.id);
    if Calibrated(draft) == {} then None else
    match Nearest(draft, draft.volume, Calibrated(draft))
    case None => None
    case Some(index) => Some(draft.(volume := index))
  }

  function SaveDraft(w: World, name: string, copy: bool, ioOk: bool): Outcome {
    var s := w.state;
    if !s.editing || s.loadError || s.draft.None? then Outcome(w, false) else
    var draft := SavedDraft(s.draft.value, name, copy);
    if draft.None? then Outcome(w, false) else
    var put := Put(Persisted(s), draft.value);
    if put.Failure? then Outcome(w, false) else
    var library := put.value;
    var w := w.(saves := w.saves + [library]);
    if !ioOk then Outcome(w, false) else
    var saved := draft.value.(id := library.active.value);
    Outcome(w.(state := s.(library := library, confirmed := Some((saved.id, saved.volume)),
                           draft := Some(saved), dirty := false, masterSeen := None)), true)
  }

  function Select(w: World, id: u64, ioOk: bool): Outcome {
    var s := w.state;
    if s.pending != map[] || !HasProfile(s.library, id) then Outcome(w, false)
    else if s.editing then Outcome(w.(state := s.(draft := Find(s.library, id))), true)
    else if s.loadError then Outcome(w, false)
    else
      var library := Persisted(s).(active := Some(id));
      var w := w.(saves := w.saves + [library]);
      if !ioOk then Outcome(w, false) else
      Outcome(w.(registry := DenyAll(w.registry),
                 state := s.(confirmed := ConfirmedOf(library), library := library, pending := map[],
                             blocked := {}, masterSeen := None, needsFence := true, dirty := false)), true)
  }

  function Without(profiles: seq<Profile>, id: u64): seq<Profile> {
    if profiles == [] then [] else
    (if profiles[0].id == id then [] else [profiles[0]]) + Without(profiles[1..], id)
  }

  function Delete(w: World, id: u64, ioOk: bool): Outcome {
    var s := w.state;
    if !s.editing || s.loadError then Outcome(w, false) else
    var l := Persisted(s);
    var library := Library(if l.active == Some(id) then None else l.active, Without(l.profiles, id));
    var w := w.(saves := w.saves + [library]);
    if !ioOk then Outcome(w, false) else
    Outcome(w.(state := s.(confirmed := ConfirmedOf(library), library := library,
                           draft := Current(library), dirty := false)), true)
  }

  /** What the worker does when the program shuts down. */
  function ShutDown(w: World): World {
    w.(registry := Broadcast(Broadcast(DenyAll(w.registry), CalibrationSession(0, Cancel)), CalibrationTone(0, false)))
  }

  function Finish(w: World, ioOk: bool): Outcome {
    if !w.state.dirty then Outcome(w, true)
    else if w.state.loadError then Outcome(w, false)
    else
      var later := w.(saves := w.saves + [Persisted(w.state)]);
      if ioOk then Outcome(later.(state := w.state.(dirty := false)), true) else Outcome(later, false)
  }

  // ---------------------------------------------------------------- the volume

  ghost function RequestVolume(w: World, requested: u16, now: nat): Outcome {
    var s, devices := w.state, Snapshots(w.registry);
    if s.editing || Current(s.library).None? then Outcome(w, false) else
    var profile := Current(s.library).value;
    var masters := MatchingIds(profile.master, devices);
    if |masters| != 1 then Outcome(w, false) else
    var target := Nearest(profile, requested, Participating(profile, devices));
    if target.None? then Outcome(w, false) else
    var master, index := Least(masters), target.value;
    var r := PanelRequest(w.registry, master, index);
    if r.request.None? then Outcome(w.(registry := r.registry), false) else
    Outcome(w.(registry := DenyAll(r.registry),
               state := s.(library := WithVolume(s.library, profile.id, index),
                           needsFence := false, blocked := {}, dirty := true, changed := now,
                           pending := s.pending[master := Pending(r.request.value, index, now)])), true)
  }

  // ---------------------------------------------------------------------- tick

  datatype Verdict = Waiting | Done | Failed

  predicate Applied(reply: DeviceStatus, index: u16) {
    !reply.failed && reply.volume == index && reply.speaker && !reply.fixed
  }

  /** What has become of an outstanding request of a connected receiver. */
  function Judge(g: Registry, id: nat, p: Pending, now: nat): Verdict {
    match Reply(g, id, p.request)
    case Some(reply) => if Applied(reply, p.index) then Done else Failed
    case None => if Elapsed(now, p.at) >= CONFIRM_TIMEOUT then Failed else Waiting
  }

  function SettledRegistry(g: Registry, s: State, ids: set<nat>): Registry {
    g.(receivers := map id | id in g.receivers ::
         if id in s.pending && id in ids
         then g.receivers[id].(replies := g.receivers[id].replies - {s.pending[id].request})
         else g.receivers[id])
  }

  function SettledState(g: Registry, s: State, ids: set<nat>, now: nat): State {
    s.(pending := map id | id in s.pending && id in ids && Judge(g, id, s.pending[id], now).Waiting? :: s.pending[id],
       blocked := (set id | id in s.blocked && id in ids)
                + (set id | id in s.pending && id in ids && Judge(g, id, s.pending[id], now).Failed?))
  }

  /** Judging the request of one more receiver. */
  lemma SettledRegistryMore(g: Registry, s: State, done: set<nat>, id: nat)
    requires id in s.pending && id !in done
    ensures Reply(SettledRegistry(g, s, done), id, s.pending[id].request) == Reply(g, id, s.pending[id].request)
    ensures SettledRegistry(g, s, done + {id}) == TakeReply(SettledRegistry(g, s, done), id, s.pending[id].request)
  {
    assert SettledRegistry(g, s, done + {id}).receivers
        == TakeReply(SettledRegistry(g, s, done), id, s.pending[id].request).receivers;
  }

  lemma SettledStateMore(g: Registry, s: State, done: set<nat>, id: nat, now: nat)
    requires id in s.pending && id !in done
    ensures var before, after := SettledState(g, s, done, now).pending, SettledState(g, s, done + {id}, now).pending;
            after == if Judge(g, id, s.pending[id], now).Waiting? then before[id := s.pending[id]] else before
    ensures s.blocked == {} ==>
      SettledState(g, s, done + {id}, now).blocked
      == SettledState(g, s, done, now).blocked + if Judge(g, id, s.pending[id], now).Failed? then {id} else {}
  {
  }

  /** The volumes a group at `index` should report. */
  ghost function Targets(p: Profile, followers: seq<Follower>, devices: map<nat, DeviceStatus>, index: u16)
    : seq<(nat, u16)>
  {
    if followers == [] then [] else
    var f := followers[0];
    var ids := MatchingIds(f.device, devices);
    (if f.device.id in Participating(p, devices) && ids != {} && index in f.mapping
     then [(Least(ids), f.mapping[index])] else [])
    + Targets(p, followers[1..], devices, index)
  }

  ghost function GroupTargets(p: Profile, master: nat, devices: map<nat, DeviceStatus>, index: u16): seq<(nat, u16)> {
    [(master, index)] + Targets(p, p.followers, devices, index)
  }

  datatype Served = Served(registry: Registry, pending: map<nat, Pending>, blocked: set<nat>, ready: bool)

  predicate AtTarget(devices: map<nat, DeviceStatus>, pending: map<nat, Pending>, blocked: set<nat>, t: (nat, u16)) {
    t.0 in devices && devices[t.0].volume == t.1 && t.0 !in pending && t.0 !in blocked
  }

  /** Checks one target and asks it for its volume unless that is under way or blocked. */
  ghost function ServeOne(v: Served, devices: map<nat, DeviceStatus>, t: (nat, u16), now: nat): Served {
    if AtTarget(devices, v.pending, v.blocked, t) then v
    else if t.0 in v.pending || t.0 in v.blocked then v.(ready := false)
    else
      var r := RestoreRequest(v.registry, t.0, t.1);
      if r.request.Some? then
        Served(r.registry, v.pending[t.0 := Pending(r.request.value, t.1, now)], v.blocked, false)
      else Served(r.registry, v.pending, v.blocked + {t.0}, false)
  }

  ghost function ServeAll(v: Served, devices: map<nat, DeviceStatus>, targets: seq<(nat, u16)>, now: nat): Served
    decreases |targets|
  {
    if targets == [] then v else ServeAll(ServeOne(v, devices, targets[0], now), devices, targets[1..], now)
  }

  /** The snapshots a tick expects unchanged when it opens the gates of its targets. */
  function Expected(devices: map<nat, DeviceStatus>, targets: seq<(nat, u16)>): map<nat, DeviceStatus> {
    map id | id in devices && (exists t <- targets :: t.0 == id) :: devices[id]
  }

  /** The arguments of a tick: the clock, whether a save succeeds, and what the network
      does to the registry right after the snapshot and right before the gates are set. */
  datatype TickInput = TickInput(now: nat, ioOk: bool, early: seq<NetEvent>, late: seq<NetEvent>)

  ghost function Deny(w: World, late: seq<NetEvent>): World {
    w.(registry := DenyAll(ApplyAll(w.registry, late)))
  }

  /** Renewing the barrier: one ordered request to the master, all gates shut. */
  ghost function Fence(w: World, p: Profile, master: nat, devices: map<nat, DeviceStatus>, now: nat): World {
    var g, s := w.registry, w.state;
    if master in s.blocked then w else
    match Nearest(p, p.volume, Participating(p, devices))
    case None => w
    case Some(index) =>
      var r := PanelRequest(g, master, index);
      if r.request.Some? then
        w.(registry := r.registry,
           state := s.(masterSeen := if master in devices then Some((master, devices[master].volume)) else s.masterSeen,
                       needsFence := false,
                       pending := s.pending[master := Pending(r.request.value, index, now)]))
      else w.(registry := r.registry, state := s.(blocked := s.blocked + {master}))
  }

  /** The volume this tick follows: a fresh key press at the master, else the profile's. */
  function Wanted(g: Registry, s: State, p: Profile, master: nat): u16 {
    var unsolicited := Unsolicited(g, master);
    if s.masterSeen.Some? && s.masterSeen.value.0 == master && unsolicited.Some?
    then unsolicited.value else p.volume
  }

  /** Moves the profile to `index`. */
  function Follow(s: State, p: Profile, index: u16, now: nat): State {
    if p.volume == index then s else
    s.(library := WithVolume(s.library, p.id, index), dirty := true, changed := now)
  }

  /** Sets the gates and, for a group that is ready, confirms and maybe saves its volume. */
  ghost function Conclude(w: World, ready: bool, p: Profile, index: u16, expected: map<nat, DeviceStatus>,
                    input: TickInput): World {
    if !ready then Deny(w, input.late) else
    var s := w.state.(confirmed := Some((p.id, index)));
    var w := w.(registry := Approve(ApplyAll(w.registry, input.late), expected), state := s);
    if !s.dirty || Elapsed(input.now, s.changed) < SAVE_DELAY then w
    else if s.loadError then w.(state := s.(changed := input.now + RETRY_DELAY))
    else
      w.(saves := w.saves + [Persisted(s)],
         state := if input.ioOk then s.(dirty := false) else s.(changed := input.now + RETRY_DELAY))
  }

  /** Moves the profile to `index` and brings every device of the group to its target. */
  ghost function Serve(w: World, p: Profile, master: nat, devices: map<nat, DeviceStatus>, index: u16,
                       input: TickInput): World {
    var s := Follow(w.state, p, index, input.now);
    var targets := GroupTargets(p, master, devices, index);
    var v := ServeAll(Served(w.registry, s.pending, s.blocked, true), devices, targets, input.now);
    Conclude(w.(registry := v.registry, state := s.(pending := v.pending, blocked := v.blocked)),
             v.ready, p, index, Expected(devices, targets), input)
  }

  /** The master's unsolicited volume is consumed and its present volume remembered. */
  function Observe(w: World, master: nat, devices: map<nat, DeviceStatus>): World {
    w.(registry := TakeUnsolicited(w.registry, master),
       state := w.state.(masterSeen := if master in devices then Some((master, devices[master].volume))
                                       else w.state.masterSeen))
  }

  /** A tick with one master, no barrier to renew and the device snapshot `devices`. */
  ghost function Drive(w: World, p: Profile, master: nat, devices: map<nat, DeviceStatus>, input: TickInput): World {
    var wanted := Wanted(w.registry, w.state, p, master);
    match Nearest(p, wanted, Participating(p, devices))
    case None => Deny(Observe(w, master, devices), input.late)
    case Some(index) => Serve(Observe(w, master, devices), p, master, devices, index, input)
  }

  /** A tick after the outstanding requests have been judged. */
  ghost function Steer(w: World, devices: map<nat, DeviceStatus>, input: TickInput): World {
    match Current(w.state.library)
    case None => Deny(w, input.late)
    case Some(p) =>
      var masters := MatchingIds(p.master, devices);
      if |masters| != 1 then Deny(w.(state := w.state.(masterSeen := None)), input.late) else
      var master := Least(masters);
      if (w.state.needsFence || HasPanelBarrier(w.registry, master)) && master !in w.state.pending
      then Deny(Fence(w, p, master, devices, input.now), input.late)
      else Drive(w, p, master, devices, input)
  }

  ghost function Tick(w: World, input: TickInput): World {
    if w.state.editing then Deny(w, input.late) else
    var devices, ids := Snapshots(w.registry), w.registry.receivers.Keys;
    var g := ApplyAll(w.registry, input.early);
    Steer(w.(registry := SettledRegistry(g, w.state, ids), state := SettledState(g, w.state, ids, input.now)),
          devices, input)
  }
}
