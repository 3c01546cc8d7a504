/** When a phone's audio gate may be open
    (windows-server/src/application/volume_control.rs:431-616,
    windows-server/src/application/registry.rs:156-185 and 321-408). */
module GateSafety {
  import opened Numbers
  import opened ControlMessages
  import opened VolumeProfiles
  import opened RegistryModel
  import opened VolumeModel
  import opened VolumeRuns

  /** The device is at the volume that profile `p` gives it: the master at the profile's
      volume or a calibrated follower at the volume mapped to it. */
  predicate AtCalibratedVolume(p: Profile, d: DeviceStatus) {
    || (Matches(p.master, d) && d.volume == p.volume)
    || exists f <- p.followers ::
         Matches(f.device, d) && p.volume in f.mapping && d.volume == f.mapping[p.volume]
  }

  predicate GateMayBeOpen(w: World, id: nat) {
    && !w.state.editing
    && Current(w.state.library).Some?
    && id !in w.state.pending && id !in w.state.blocked
    && id in w.registry.receivers && w.registry.receivers[id].device.Some?
    && AtCalibratedVolume(Current(w.state.library).value, w.registry.receivers[id].device.value)
  }

  predicate AllShut(g: Registry) {
    forall id <- g.receivers :: !g.receivers[id].playback
  }

  ghost predicate GatesSafe(w: World) {
    forall id <- w.registry.receivers :: w.registry.receivers[id].playback ==> GateMayBeOpen(w, id)
  }

  ghost predicate Inv(w: World) {
    && GatesSafe(w)
    && (!w.state.editing ==> w.state.originals == [])
    && (forall id <- w.registry.receivers :: id < w.registry.nextId)
  }

  // ------------------------------------------------------- what the network can do

  /** Equal in all that calibration looks at: not the name, not the request. */
  predicate SameSetting(a: DeviceStatus, b: DeviceStatus) {
    a == b.(name := a.name, requestId := a.requestId)
  }

  predicate SameDeviceSetting(a: Option<DeviceStatus>, b: Option<DeviceStatus>) {
    a == b || (a.Some? && b.Some? && SameSetting(a.value, b.value))
  }

  /** No gate opens, and one stays open only on an unchanged device. */
  ghost predicate OnlyShuts(g: Registry, h: Registry) {
    && g.nextId <= h.nextId
    && (forall id <- h.receivers :: id < h.nextId)
    && (forall id <- h.receivers :: h.receivers[id].playback ==>
          && id in g.receivers && g.receivers[id].playback
          && SameDeviceSetting(g.receivers[id].device, h.receivers[id].device))
  }

  lemma ApplyOnlyShuts(g: Registry, event: NetEvent)
    requires forall id <- g.receivers :: id < g.nextId
    ensures OnlyShuts(g, Apply(g, event))
  {
  }

  lemma {:induction false} ApplyAllOnlyShuts(g: Registry, events: seq<NetEvent>)
    requires forall id <- g.receivers :: id < g.nextId
    ensures OnlyShuts(g, ApplyAll(g, events))
    decreases |events|
  {
    if events != [] {
      var h := Apply(g, events[0]);
      ApplyOnlyShuts(g, events[0]);
      ApplyAllOnlyShuts(h, events[1..]);
      OnlyShutsComposes(g, h, ApplyAll(h, events[1..]));
    }
  }

  lemma OnlyShutsComposes(a: Registry, b: Registry, c: Registry)
    requires OnlyShuts(a, b) && OnlyShuts(b, c)
    ensures OnlyShuts(a, c)
  {
  }

  lemma ShuttingKeepsInv(w: World, h: Registry)
    requires Inv(w) && OnlyShuts(w.registry, h)
    ensures Inv(w.(registry := h))
  {
  }

  // ---------------------------------------------------- operations that send or read

  /** The same receivers, devices and gates. */
  predicate SameGates(g: Registry, h: Registry) {
    && g.nextId == h.nextId && g.receivers.Keys == h.receivers.Keys
    && forall id <- g.receivers ::
         g.receivers[id].playback == h.receivers[id].playback && g.receivers[id].device == h.receivers[id].device
  }

  lemma {:induction false} RestoreOriginalsSends(
    g: Registry, pending: map<nat, Pending>, originals: seq<(nat, DeviceStatus)>, now: nat)
    ensures SameGates(g, RestoreOriginals(g, pending, originals, now).0)
    decreases |originals|
  {
    if originals != [] {
      var (id, original) := originals[0];
      var r := RestoreRequest(g, id, original.volume);
      var next := if r.request.Some? then pending[id := Pending(r.request.value, original.volume, now)] else pending;
      RestoreOriginalsSends(r.registry, next, originals[1..], now);
    }
  }

  lemma ServeOneSends(v: Served, devices: map<nat, DeviceStatus>, t: (nat, u16), now: nat)
    ensures SameGates(v.registry, ServeOne(v, devices, t, now).registry)
    ensures ServeOne(v, devices, t, now).ready ==>
      ServeOne(v, devices, t, now) == v && AtTarget(devices, v.pending, v.blocked, t)
  {
  }

  /** A group is ready only if every target is at its volume with nothing outstanding. */
  lemma {:induction false} ServeAllSends(
    v: Served, devices: map<nat, DeviceStatus>, targets: seq<(nat, u16)>, now: nat)
    ensures SameGates(v.registry, ServeAll(v, devices, targets, now).registry)
    ensures ServeAll(v, devices, targets, now).ready ==>
      && ServeAll(v, devices, targets, now) == v
      && forall t <- targets :: AtTarget(devices, v.pending, v.blocked, t)
    decreases |targets|
  {
    if targets != [] {
      ServeOneSends(v, devices, targets[0], now);
      ServeAllSends(ServeOne(v, devices, targets[0], now), devices, targets[1..], now);
    }
  }

  // --------------------------------------------------------------------- the tick

  lemma DenyIsSafe(w: World, late: seq<NetEvent>)
    requires forall id <- w.registry.receivers :: id < w.registry.nextId
    requires !w.state.editing ==> w.state.originals == []
    ensures Inv(Deny(w, late)) && AllShut(Deny(w, late).registry)
  {
    ApplyAllOnlyShuts(w.registry, late);
  }

  /** A target is a usable device with the volume profile `p` gives it at `index`. */
  predicate IsCalibratedTarget(p: Profile, devices: map<nat, DeviceStatus>, index: u16, t: (nat, u16)) {
    t.0 in devices &&
    (|| (Matches(p.master, devices[t.0]) && t.1 == index)
     || exists f <- p.followers :: Matches(f.device, devices[t.0]) && index in f.mapping && t.1 == f.mapping[index])
  }

  lemma {:induction false} TargetsAreCalibrated(
    p: Profile, followers: seq<Follower>, devices: map<nat, DeviceStatus>, index: u16)
    requires forall f <- followers :: f in p.followers
    ensures forall t <- Targets(p, followers, devices, index) :: IsCalibratedTarget(p, devices, index, t)
  {
    if followers != [] {
      TargetsAreCalibrated(p, followers[1..], devices, index);
      var f := followers[0];
      var ids := MatchingIds(f.device, devices);
      assert f in p.followers;
      if ids != {} {
        assert Matches(f.device, devices[Least(ids)]);
      }
    }
  }

  lemma WithVolumeCurrent(l: Library, p: Profile, index: u16)
    requires Current(l) == Some(p)
    ensures Current(WithVolume(l, p.id, index)) == Some(p.(volume := index))
  {
    var k := IndexOf(l.profiles, p.id);
    IndexOfIs(WithVolume(l, p.id, index).profiles, p.id, k);
  }

  /** Approval after the recheck is safe: an open gate is at its calibrated volume now. */
  lemma ApproveIsSafe(w: World, devices: map<nat, DeviceStatus>, targets: seq<(nat, u16)>, p: Profile, g: Registry)
    requires !w.state.editing && w.state.originals == [] && Current(w.state.library) == Some(p)
    requires forall t <- targets ::
      && IsCalibratedTarget(p, devices, p.volume, t)
      && AtTarget(devices, w.state.pending, w.state.blocked, t)
    requires forall id <- g.receivers :: id < g.nextId
    ensures Inv(w.(registry := Approve(g, Expected(devices, targets))))
  {
  }

  ghost predicate Idle(w: World) {
    && !w.state.editing && w.state.originals == []
    && forall id <- w.registry.receivers :: id < w.registry.nextId
  }

  lemma ConcludeIsSafe(
    w: World, ready: bool, p: Profile, index: u16, devices: map<nat, DeviceStatus>, targets: seq<(nat, u16)>,
    input: TickInput)
    requires Idle(w) && Current(w.state.library) == Some(p.(volume := index))
    requires ready ==> forall t <- targets ::
      IsCalibratedTarget(p, devices, index, t) && AtTarget(devices, w.state.pending, w.state.blocked, t)
    ensures Inv(Conclude(w, ready, p, index, Expected(devices, targets), input))
  {
    if ready {
      ApplyAllOnlyShuts(w.registry, input.late);
      var q := p.(volume := index);
      forall t | t in targets
        ensures IsCalibratedTarget(q, devices, index, t)
      {
        assert IsCalibratedTarget(p, devices, index, t);
      }
      ApproveIsSafe(w, devices, targets, q, ApplyAll(w.registry, input.late));
    } else {
      DenyIsSafe(w, input.late);
    }
  }

  lemma GroupTargetsAreCalibrated(p: Profile, master: nat, devices: map<nat, DeviceStatus>, index: u16)
    requires master in MatchingIds(p.master, devices)
    ensures forall t <- GroupTargets(p, master, devices, index) :: IsCalibratedTarget(p, devices, index, t)
  {
    TargetsAreCalibrated(p, p.followers, devices, index);
  }

  lemma FollowMovesCurrent(s: State, p: Profile, index: u16, now: nat)
    requires Current(s.library) == Some(p)
    ensures Current(Follow(s, p, index, now).library) == Some(p.(volume := index))
  {
    WithVolumeCurrent(s.library, p, index);
  }

  lemma ServeIsSafe(
    w: World, p: Profile, master: nat, devices: map<nat, DeviceStatus>, index: u16, input: TickInput)
    requires Idle(w) && Current(w.state.library) == Some(p) && master in MatchingIds(p.master, devices)
    ensures Inv(Serve(w, p, master, devices, index, input))
  {
    var s := Follow(w.state, p, index, input.now);
    FollowMovesCurrent(w.state, p, index, input.now);
    var targets := GroupTargets(p, master, devices, index);
    var v0 := Served(w.registry, s.pending, s.blocked, true);
    var v := ServeAll(v0, devices, targets, input.now);
    ServeAllSends(v0, devices, targets, input.now);
    GroupTargetsAreCalibrated(p, master, devices, index);
    ConcludeIsSafe(w.(registry := v.registry, state := s.(pending := v.pending, blocked := v.blocked)),
                   v.ready, p, index, devices, targets, input);
  }

  lemma DriveIsSafe(w: World, p: Profile, master: nat, devices: map<nat, DeviceStatus>, input: TickInput)
    requires Idle(w) && Current(w.state.library) == Some(p) && master in MatchingIds(p.master, devices)
    ensures Inv(Drive(w, p, master, devices, input))
  {
    match Nearest(p, Wanted(w.registry, w.state, p, master), Participating(p, devices))
    case None => DenyIsSafe(Observe(w, master, devices), input.late);
    case Some(index) => ServeIsSafe(Observe(w, master, devices), p, master, devices, index, input);
  }

  lemma FenceSends(w: World, p: Profile, master: nat, devices: map<nat, DeviceStatus>, now: nat)
    requires Idle(w)
    ensures Idle(Fence(w, p, master, devices, now))
  {
  }

  lemma SteerIsSafe(w: World, devices: map<nat, DeviceStatus>, input: TickInput)
    requires Idle(w)
    ensures Inv(Steer(w, devices, input))
  {
    match Current(w.state.library)
    case None => DenyIsSafe(w, input.late);
    case Some(p) =>
      var masters := MatchingIds(p.master, devices);
      if |masters| != 1 {
        DenyIsSafe(w.(state := w.state.(masterSeen := None)), input.late);
      } else {
        var master := Least(masters);
        if (w.state.needsFence || HasPanelBarrier(w.registry, master)) && master !in w.state.pending {
          FenceSends(w, p, master, devices, input.now);
          DenyIsSafe(Fence(w, p, master, devices, input.now), input.late);
        } else {
          DriveIsSafe(w, p, master, devices, input);
        }
      }
  }

  /** Whatever the state, a tick leaves only safe gates open: every one of its exits
      re-approves them or shuts them. */
  lemma TickIsSafe(w: World, input: TickInput)
    requires (forall id <- w.registry.receivers :: id < w.registry.nextId)
    requires !w.state.editing ==> w.state.originals == []
    ensures Inv(Tick(w, input))
  {
    if w.state.editing {
      DenyIsSafe(w, input.late);
    } else {
      var devices, ids := Snapshots(w.registry), w.registry.receivers.Keys;
      ApplyAllOnlyShuts(w.registry, input.early);
      var g := ApplyAll(w.registry, input.early);
      SteerIsSafe(w.(registry := SettledRegistry(g, w.state, ids),
                     state := SettledState(g, w.state, ids, input.now)), devices, input);
    }
  }

  // --------------------------------------------------------------- all operations

  lemma CloseIsSafe(w: World, now: nat)
    requires Inv(w)
    ensures Inv(Close(w, now))
  {
    var g := Broadcast(Broadcast(w.registry, CalibrationTone(0, false)), CalibrationSession(0, Cancel));
    assert SameGates(w.registry, g);
    RestoreOriginalsSends(g, map[], w.state.originals, now);
    forall id | id in w.registry.receivers && w.registry.receivers[id].playback
      ensures GateMayBeOpen(w, id)
    {
    }
  }

  lemma LibraryOpsAreSafe(w: World, e: Event)
    requires Inv(w) && (e.SaveEvent? || e.SelectEvent? || e.DeleteEvent? || e.FinishEvent?)
    ensures Inv(Next(w, e))
  {
  }

  lemma RequestVolumeIsSafe(w: World, requested: u16, now: nat)
    requires Inv(w)
    ensures Inv(RequestVolume(w, requested, now).world)
  {
    var r := RequestVolume(w, requested, now);
    if !r.ok {
      RefusalKeepsGates(w, requested, now);
      SameGatesKeepInv(w, r.world.registry);
    }
  }

  lemma RefusalKeepsGates(w: World, requested: u16, now: nat)
    requires !RequestVolume(w, requested, now).ok
    ensures RequestVolume(w, requested, now).world.state == w.state
    ensures RequestVolume(w, requested, now).world.saves == w.saves
    ensures SameGates(w.registry, RequestVolume(w, requested, now).world.registry)
  {
  }

  lemma SameGatesKeepInv(w: World, h: Registry)
    requires Inv(w) && SameGates(w.registry, h)
    ensures Inv(w.(registry := h))
  {
  }

  lemma NextIsSafe(w: World, e: Event)
    requires Inv(w)
    ensures Inv(Next(w, e))
  {
    match e
    case Net(event) =>
      ApplyOnlyShuts(w.registry, event);
      ShuttingKeepsInv(w, Apply(w.registry, event));
    case TickEvent(input) => TickIsSafe(w, input);
    case OpenEvent =>
    case CloseEvent(now) => CloseIsSafe(w, now);
    case RememberEvent(_, _) =>
    case EditEvent(_) =>
    case SaveEvent(_, _, _) => LibraryOpsAreSafe(w, e);
    case SelectEvent(_, _) => LibraryOpsAreSafe(w, e);
    case DeleteEvent(_, _) => LibraryOpsAreSafe(w, e);
    case SetVolumeEvent(requested, now) => RequestVolumeIsSafe(w, requested, now);
    case ShutDownEvent =>
    case FinishEvent(_) => LibraryOpsAreSafe(w, e);
  }

  /** Gate safety over all runs: between any two operations an open gate means that no
      calibration window is open, a profile is active, nothing is outstanding or blocked
      for that phone, and its last report is a usable device of the profile at exactly
      the calibrated volume. */
  lemma {:induction false} GatesAreSafe(loaded: Option<Library>, events: seq<Event>)
    ensures GatesSafe(Run(Initial(loaded), events))
    ensures Inv(Run(Initial(loaded), events))
  {
    if events != [] {
      GatesAreSafe(loaded, events[..|events| - 1]);
      NextIsSafe(Run(Initial(loaded), events[..|events| - 1]), events[|events| - 1]);
    }
  }

  // ------------------------------------------------------------- the whole group

  /** Exactly the gates of the targets are open, and every target reports its volume. */
  ghost predicate WholeGroupOpen(g: Registry, targets: seq<(nat, u16)>) {
    && (forall id <- g.receivers :: g.receivers[id].playback <==> exists t <- targets :: t.0 == id)
    && (forall t <- targets ::
          t.0 in g.receivers && g.receivers[t.0].device.Some? && g.receivers[t.0].device.value.volume == t.1)
  }

  lemma {:induction false} TargetsIgnoreVolume(
    p: Profile, followers: seq<Follower>, devices: map<nat, DeviceStatus>, index: u16, volume: u16)
    ensures Targets(p.(volume := volume), followers, devices, index) == Targets(p, followers, devices, index)
  {
    assert Participating(p.(volume := volume), devices) == Participating(p, devices);
    if followers != [] {
      TargetsIgnoreVolume(p, followers[1..], devices, index, volume);
    }
  }

  lemma ApproveOpensAllOrNone(g: Registry, devices: map<nat, DeviceStatus>, targets: seq<(nat, u16)>)
    requires forall t <- targets :: t.0 in devices && devices[t.0].volume == t.1
    ensures var h := Approve(g, Expected(devices, targets)); AllShut(h) || WholeGroupOpen(h, targets)
  {
  }

  ghost predicate AllOrNone(w: World, devices: map<nat, DeviceStatus>) {
    || AllShut(w.registry)
    || (&& Current(w.state.library).Some?
        && var p := Current(w.state.library).value;
        && MatchingIds(p.master, devices) != {}
        && WholeGroupOpen(w.registry, GroupTargets(p, Least(MatchingIds(p.master, devices)), devices, p.volume)))
  }

  lemma ConcludeIsAllOrNone(
    w: World, ready: bool, p: Profile, index: u16, devices: map<nat, DeviceStatus>, targets: seq<(nat, u16)>,
    input: TickInput)
    requires Idle(w)
    requires ready ==> forall t <- targets :: AtTarget(devices, w.state.pending, w.state.blocked, t)
    ensures var h := Conclude(w, ready, p, index, Expected(devices, targets), input);
            && h.state.library == w.state.library
            && (AllShut(h.registry) || WholeGroupOpen(h.registry, targets))
  {
    if ready {
      ApproveOpensAllOrNone(ApplyAll(w.registry, input.late), devices, targets);
    } else {
      DenyIsSafe(w, input.late);
    }
  }

  lemma ServeIsAllOrNone(
    w: World, p: Profile, master: nat, devices: map<nat, DeviceStatus>, index: u16, input: TickInput)
    requires Idle(w) && Current(w.state.library) == Some(p)
    requires master in MatchingIds(p.master, devices) && master == Least(MatchingIds(p.master, devices))
    ensures AllOrNone(Serve(w, p, master, devices, index, input), devices)
  {
    var s := Follow(w.state, p, index, input.now);
    FollowMovesCurrent(w.state, p, index, input.now);
    var targets := GroupTargets(p, master, devices, index);
    TargetsIgnoreVolume(p, p.followers, devices, index, index);
    var v0 := Served(w.registry, s.pending, s.blocked, true);
    var v := ServeAll(v0, devices, targets, input.now);
    ServeAllSends(v0, devices, targets, input.now);
    ConcludeIsAllOrNone(w.(registry := v.registry, state := s.(pending := v.pending, blocked := v.blocked)),
                        v.ready, p, index, devices, targets, input);
  }

  lemma DriveIsAllOrNone(w: World, p: Profile, master: nat, devices: map<nat, DeviceStatus>, input: TickInput)
    requires Idle(w) && Current(w.state.library) == Some(p)
    requires master in MatchingIds(p.master, devices) && master == Least(MatchingIds(p.master, devices))
    ensures AllOrNone(Drive(w, p, master, devices, input), devices)
  {
    match Nearest(p, Wanted(w.registry, w.state, p, master), Participating(p, devices))
    case None => DenyIsSafe(Observe(w, master, devices), input.late);
    case Some(index) => ServeIsAllOrNone(Observe(w, master, devices), p, master, devices, index, input);
  }

  lemma SteerIsAllOrNone(w: World, devices: map<nat, DeviceStatus>, input: TickInput)
    requires Idle(w)
    ensures AllOrNone(Steer(w, devices, input), devices)
  {
    match Current(w.state.library)
    case None => DenyIsSafe(w, input.late);
    case Some(p) =>
      var masters := MatchingIds(p.master, devices);
      if |masters| != 1 {
        DenyIsSafe(w.(state := w.state.(masterSeen := None)), input.late);
      } else {
        var master := Least(masters);
        if (w.state.needsFence || HasPanelBarrier(w.registry, master)) && master !in w.state.pending {
          FenceSends(w, p, master, devices, input.now);
          DenyIsSafe(Fence(w, p, master, devices, input.now), input.late);
        } else {
          DriveIsAllOrNone(w, p, master, devices, input);
        }
      }
  }

  /** A tick opens all or none: if any gate is open afterwards, then exactly those of the
      master and the participating followers are, and at that moment each of them
      reports the volume the profile gives it. */
  lemma TickIsAllOrNone(w: World, input: TickInput)
    requires Inv(w)
    ensures AllOrNone(Tick(w, input), Snapshots(w.registry))
  {
    if w.state.editing {
      DenyIsSafe(w, input.late);
    } else {
      var devices, ids := Snapshots(w.registry), w.registry.receivers.Keys;
      ApplyAllOnlyShuts(w.registry, input.early);
      var g := ApplyAll(w.registry, input.early);
      SteerIsAllOrNone(w.(registry := SettledRegistry(g, w.state, ids),
                          state := SettledState(g, w.state, ids, input.now)), devices, input);
    }
  }
}
