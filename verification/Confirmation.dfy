/** When a tick confirms a volume, the one that is then saved
    (windows-server/src/application/volume_control.rs:487-616). */
module Confirmation {
  import opened Numbers
  import opened ControlMessages
  import opened VolumeProfiles
  import opened RegistryModel
  import opened VolumeModel
  import opened GateSafety
  import opened Persistence

  /** The confirmed volume stayed as it was, or is one that the snapshot `devices` shows the
      whole group of the active profile to have reached. */
  ghost predicate ConfirmsReached(w: World, later: World, devices: map<nat, DeviceStatus>) {
    || later.state.confirmed == w.state.confirmed
    || (&& Current(w.state.library).Some? && later.state.confirmed.Some?
        && var p, c := Current(w.state.library).value, later.state.confirmed.value;
        && c.0 == p.id && GroupReached(p, devices, c.1))
  }

  lemma ConcludeConfirms(
    w: World, ready: bool, p: Profile, index: u16, expected: map<nat, DeviceStatus>, input: TickInput)
    ensures var c := Conclude(w, ready, p, index, expected, input).state.confirmed;
            c == w.state.confirmed || (ready && c == Some((p.id, index)))
  {
  }

  lemma ServeConfirms(
    w: World, p: Profile, master: nat, devices: map<nat, DeviceStatus>, index: u16, input: TickInput)
    requires IsSole(p.master, devices, master) && IsAvailable(p, Participating(p, devices), index)
    ensures var c := Serve(w, p, master, devices, index, input).state.confirmed;
            c == w.state.confirmed || (c == Some((p.id, index)) && GroupReached(p, devices, index))
  {
    var s := Follow(w.state, p, index, input.now);
    var targets := GroupTargets(p, master, devices, index);
    var v0 := Served(w.registry, s.pending, s.blocked, true);
    var v := ServeAll(v0, devices, targets, input.now);
    if v.ready {
      ServedReached(v0, p, master, devices, index, input.now);
    }
    ConcludeConfirms(w.(registry := v.registry, state := s.(pending := v.pending, blocked := v.blocked)),
                     v.ready, p, index, Expected(devices, targets), input);
  }

  lemma DriveConfirms(w: World, p: Profile, master: nat, devices: map<nat, DeviceStatus>, input: TickInput)
    requires Current(w.state.library) == Some(p) && IsSole(p.master, devices, master)
    ensures ConfirmsReached(w, Drive(w, p, master, devices, input), devices)
  {
    match Nearest(p, Wanted(w.registry, w.state, p, master), Participating(p, devices))
    case None =>
    case Some(index) => ServeConfirms(Observe(w, master, devices), p, master, devices, index, input);
  }

  lemma SteerConfirms(w: World, devices: map<nat, DeviceStatus>, input: TickInput)
    ensures ConfirmsReached(w, Steer(w, devices, input), devices)
  {
    if Current(w.state.library).Some? {
      var p := Current(w.state.library).value;
      var masters := MatchingIds(p.master, devices);
      if |masters| == 1 {
        var master := Least(masters);
        SoleMaster(p.master, devices);
        if (w.state.needsFence || HasPanelBarrier(w.registry, master)) && master !in w.state.pending {
          FenceLeavesLibrary(w, p, master, devices, input.now);
        } else {
          DriveConfirms(w, p, master, devices, input);
        }
      }
    }
  }

  /** A tick confirms a volume only if its own snapshot shows one master at it and every
      calibrated follower that is connected once at its volume for it. */
  lemma TickConfirmsReached(w: World, input: TickInput)
    ensures ConfirmsReached(w, Tick(w, input), Snapshots(w.registry))
  {
    if !w.state.editing {
      var ids := w.registry.receivers.Keys;
      var g := ApplyAll(w.registry, input.early);
      SteerConfirms(w.(registry := SettledRegistry(g, w.state, ids),
                       state := SettledState(g, w.state, ids, input.now)), Snapshots(w.registry), input);
    }
  }
}
