/** When a gate may be open, with the network at work between any two calls
    (windows-server/src/application/volume_control.rs:166-214 and 380-616). */
module InterleavedSafety {
  import opened Numbers
  import opened ControlMessages
  import opened VolumeProfiles
  import opened RegistryModel
  import opened VolumeModel
  import opened VolumeRuns
  import opened InterleavedModel
  import opened GateSafety

  // ---------------------------------------------------------------------- safety

  lemma NetOnlyShuts(g: Registry, events: seq<NetEvent>)
    requires Numbered(g)
    ensures Numbered(ApplyAll(g, events)) && OnlyShuts(g, ApplyAll(g, events))
  {
    ApplyAllOnlyShuts(g, events);
  }

  lemma SameOnlyShuts(g: Registry, h: Registry)
    requires Numbered(g) && SameGates(g, h)
    ensures Numbered(h) && OnlyShuts(g, h)
  {
  }

  lemma ShutIsSafe(w: World, net: Net)
    requires Numbered(w.registry) && (!w.state.editing ==> w.state.originals == [])
    ensures Inv(Shut(w, net)) && AllShut(Shut(w, net).registry)
  {
    NetOnlyShuts(w.registry, net(Gates));
  }

  lemma AmidKeepsInv(w: World, net: Net, call: Call)
    requires Inv(w)
    ensures Inv(Amid(w, net, call))
  {
    NetOnlyShuts(w.registry, net(call));
    ShuttingKeepsInv(w, ApplyAll(w.registry, net(call)));
  }

  lemma TakeOnlyShuts(g: Registry, id: nat, request: nat)
    requires Numbered(g)
    ensures Numbered(TakeReply(g, id, request)) && OnlyShuts(g, TakeReply(g, id, request))
  {
    SameOnlyShuts(g, TakeReply(g, id, request));
  }

  lemma JudgedOneOnlyShuts(g: Registry, events: seq<NetEvent>, s: State, id: nat, p: Pending, now: nat)
    requires Numbered(g)
    ensures var (h, t) := JudgedOne(ApplyAll(g, events), s, id, p, now);
            && Numbered(h) && OnlyShuts(g, h)
            && t == s.(pending := t.pending, blocked := t.blocked)
  {
    var later := ApplyAll(g, events);
    NetOnlyShuts(g, events);
    TakeOnlyShuts(later, id, p.request);
    hide TakeReply, ApplyAll, OnlyShuts, Numbered, Judge;
    OnlyShutsComposes(g, later, TakeReply(later, id, p.request));
  }

  lemma {:induction false} JudgedOnlyShuts(g: Registry, s: State, ids: set<nat>, n: nat, now: nat, net: Net)
    requires Numbered(g)
    ensures var (h, t) := Judged(g, s, ids, n, now, net);
            && Numbered(h) && OnlyShuts(g, h)
            && t == s.(pending := t.pending, blocked := t.blocked)
  {
    if n > 0 {
      JudgedOnlyShuts(g, s, ids, n - 1, now, net);
      if n - 1 in s.pending && n - 1 in ids {
        hide JudgedOne, OnlyShuts, Numbered, ApplyAll;
        var (h, t) := Judged(g, s, ids, n - 1, now, net);
        JudgedOneOnlyShuts(h, net(Taking(n - 1)), t, n - 1, s.pending[n - 1], now);
        OnlyShutsComposes(g, h, JudgedOne(ApplyAll(h, net(Taking(n - 1))), t, n - 1, s.pending[n - 1], now).0);
      }
    }
  }

  /** A group is ready only with every target at its volume and nothing newly asked. */
  lemma {:induction false} ServedReady(v: Served, devices: map<nat, DeviceStatus>, targets: seq<(nat, u16)>, n: nat,
                                       now: nat, net: Net)
    requires n <= |targets|
    ensures ServedAmid(v, devices, targets, n, now, net).ready ==>
      forall i | 0 <= i < n :: AtTarget(devices, v.pending, v.blocked, targets[i])
    ensures var u := ServedAmid(v, devices, targets, n, now, net);
      u.ready ==> u.pending == v.pending && u.blocked == v.blocked
  {
    if n > 0 {
      ServedReady(v, devices, targets, n - 1, now, net);
      var u := ServedAmid(v, devices, targets, n - 1, now, net);
      ServeOneSends(u.(registry := ApplyAll(u.registry, net(Restoring(n - 1)))), devices, targets[n - 1], now);
    }
  }

  /** While targets are asked no gate opens. */
  lemma {:induction false} ServedOnlyShuts(v: Served, devices: map<nat, DeviceStatus>, targets: seq<(nat, u16)>,
                                           n: nat, now: nat, net: Net)
    requires n <= |targets| && Numbered(v.registry)
    ensures var g := ServedAmid(v, devices, targets, n, now, net).registry; Numbered(g) && OnlyShuts(v.registry, g)
  {
    if n > 0 {
      ServedOnlyShuts(v, devices, targets, n - 1, now, net);
      var u := ServedAmid(v, devices, targets, n - 1, now, net);
      var amid := u.(registry := ApplyAll(u.registry, net(Restoring(n - 1))));
      NetOnlyShuts(u.registry, net(Restoring(n - 1)));
      ServeOneSends(amid, devices, targets[n - 1], now);
      SameOnlyShuts(amid.registry, ServeOne(amid, devices, targets[n - 1], now).registry);
      OnlyShutsComposes(v.registry, u.registry, amid.registry);
      OnlyShutsComposes(v.registry, amid.registry, ServeOne(amid, devices, targets[n - 1], now).registry);
    }
  }

  lemma ServeAmidIsSafe(w: World, p: Profile, master: nat, devices: map<nat, DeviceStatus>, index: u16,
                        now: nat, ioOk: bool, net: Net)
    requires Idle(w) && Current(w.state.library) == Some(p) && master in MatchingIds(p.master, devices)
    ensures Inv(ServeAmid(w, p, master, devices, index, now, ioOk, net))
  {
    var s := Follow(w.state, p, index, now);
    FollowMovesCurrent(w.state, p, index, now);
    var targets := GroupTargets(p, master, devices, index);
    var v0 := Served(w.registry, s.pending, s.blocked, true);
    var v := ServedAmid(v0, devices, targets, |targets|, now, net);
    ServedReady(v0, devices, targets, |targets|, now, net);
    ServedOnlyShuts(v0, devices, targets, |targets|, now, net);
    GroupTargetsAreCalibrated(p, master, devices, index);
    ConcludeIsSafe(w.(registry := v.registry, state := s.(pending := v.pending, blocked := v.blocked)),
                   v.ready, p, index, devices, targets, TickInput(now, ioOk, [], net(Gates)));
  }

  lemma DriveAmidIsSafe(w: World, p: Profile, master: nat, devices: map<nat, DeviceStatus>,
                        now: nat, ioOk: bool, net: Net)
    requires Idle(w) && Current(w.state.library) == Some(p) && master in MatchingIds(p.master, devices)
    ensures Inv(DriveAmid(w, p, master, devices, now, ioOk, net))
  {
    NetOnlyShuts(w.registry, net(TakingVolume));
    var w := Amid(w, net, TakingVolume);
    match Nearest(p, Wanted(w.registry, w.state, p, master), Participating(p, devices))
    case None => ShutIsSafe(Observe(w, master, devices), net);
    case Some(index) => ServeAmidIsSafe(Observe(w, master, devices), p, master, devices, index, now, ioOk, net);
  }

  /** Renewing the barrier comes after the gates were shut. */
  lemma FenceAmidIsSafe(w: World, p: Profile, master: nat, devices: map<nat, DeviceStatus>, now: nat, net: Net)
    requires Idle(w)
    ensures Inv(Fence(Amid(Shut(w, net), net, PanelCall), p, master, devices, now))
    ensures AllShut(Fence(Amid(Shut(w, net), net, PanelCall), p, master, devices, now).registry)
  {
    ShutIsSafe(w, net);
    AmidKeepsInv(Shut(w, net), net, PanelCall);
    NetOnlyShuts(Shut(w, net).registry, net(PanelCall));
    FenceKeepsShut(Amid(Shut(w, net), net, PanelCall), p, master, devices, now);
  }

  lemma FenceKeepsShut(w: World, p: Profile, master: nat, devices: map<nat, DeviceStatus>, now: nat)
    requires Idle(w) && AllShut(w.registry)
    ensures Idle(Fence(w, p, master, devices, now)) && AllShut(Fence(w, p, master, devices, now).registry)
  {
    FenceSends(w, p, master, devices, now);
    match Nearest(p, p.volume, Participating(p, devices))
    case None =>
    case Some(index) => RequestKeepsShut(w.registry, master, index);
  }

  lemma RequestKeepsShut(g: Registry, id: nat, index: u16)
    requires AllShut(g)
    ensures AllShut(PanelRequest(g, id, index).registry)
  {
  }

  lemma SteerAmidIsSafe(w: World, devices: map<nat, DeviceStatus>, now: nat, ioOk: bool, net: Net)
    requires Idle(w)
    ensures Inv(SteerAmid(w, devices, now, ioOk, net))
  {
    match Current(w.state.library)
    case None => ShutIsSafe(w, net);
    case Some(p) =>
      var masters := MatchingIds(p.master, devices);
      if |masters| != 1 {
        ShutIsSafe(w.(state := w.state.(masterSeen := None)), net);
      } else {
        var master, amid := Least(masters), Amid(w, net, Barrier);
        NetOnlyShuts(w.registry, net(Barrier));
        if IsFencing(amid, master) {
          FenceAmidIsSafe(amid, p, master, devices, now, net);
        } else {
          DriveAmidIsSafe(amid, p, master, devices, now, ioOk, net);
        }
      }
  }

  /** However the network interferes with a tick, only safe gates are open after it. */
  lemma TickAmidIsSafe(w: World, now: nat, ioOk: bool, net: Net)
    requires Numbered(w.registry) && (!w.state.editing ==> w.state.originals == [])
    ensures Inv(TickAmid(w, now, ioOk, net))
  {
    if w.state.editing {
      ShutIsSafe(w, net);
    } else {
      NetOnlyShuts(w.registry, net(Snapshot));
      var seen := Amid(w, net, Snapshot);
      var devices, ids := Snapshots(seen.registry), seen.registry.receivers.Keys;
      NetOnlyShuts(seen.registry, net(Judging));
      var g0 := ApplyAll(seen.registry, net(Judging));
      JudgedOnlyShuts(g0, w.state, ids, seen.registry.nextId, now, net);
      var (g, s) := Judged(g0, w.state, ids, seen.registry.nextId, now, net);
      SteerAmidIsSafe(w.(registry := g, state := s), devices, now, ioOk, net);
      AmidKeepsInv(SteerAmid(w.(registry := g, state := s), devices, now, ioOk, net), net, Ended);
    }
  }

  lemma OpenAmidIsSafe(w: World, net: Net)
    requires Inv(w)
    ensures Inv(OpenAmid(w, net).world)
  {
    NetOnlyShuts(w.registry, net(Snapshot));
    NetOnlyShuts(ApplyAll(w.registry, net(Snapshot)), net(Gates));
  }

  /** While the calibration window is open, every gate is shut and stays so. */
  lemma EditingIsShut(w: World, g: Registry)
    requires Inv(w) && w.state.editing && OnlyShuts(w.registry, g)
    ensures AllShut(g)
  {
  }

  lemma BroadcastOnlyShuts(g: Registry, message: ControlMessage)
    requires Numbered(g)
    ensures Numbered(Broadcast(g, message)) && OnlyShuts(g, Broadcast(g, message))
  {
    SameOnlyShuts(g, Broadcast(g, message));
  }

  lemma {:induction false} RestoredOnlyShuts(g: Registry, originals: seq<(nat, DeviceStatus)>, n: nat, now: nat,
                                             net: Net)
    requires n <= |originals| && Numbered(g)
    ensures var h := RestoredAmid(g, originals, n, now, net).0; Numbered(h) && OnlyShuts(g, h)
  {
    if n > 0 {
      RestoredOnlyShuts(g, originals, n - 1, now, net);
      var h := RestoredAmid(g, originals, n - 1, now, net).0;
      var later := ApplyAll(h, net(Restoring(n - 1)));
      var (id, original) := originals[n - 1];
      NetOnlyShuts(h, net(Restoring(n - 1)));
      SameOnlyShuts(later, RestoreRequest(later, id, original.volume).registry);
      OnlyShutsComposes(g, h, later);
      OnlyShutsComposes(g, later, RestoreRequest(later, id, original.volume).registry);
    }
  }

  lemma ClosingOnlyShuts(g: Registry, originals: seq<(nat, DeviceStatus)>, now: nat, net: Net)
    requires Numbered(g)
    ensures var a := ApplyAll(g, net(Silencing));
            var b := Broadcast(a, CalibrationTone(0, false));
            var c := ApplyAll(b, net(Cancelling));
            var d := Broadcast(c, CalibrationSession(0, Cancel));
            var h := RestoredAmid(d, originals, |originals|, now, net).0;
            Numbered(h) && OnlyShuts(g, h)
  {
    var a := ApplyAll(g, net(Silencing));
    var b := Broadcast(a, CalibrationTone(0, false));
    var c := ApplyAll(b, net(Cancelling));
    var d := Broadcast(c, CalibrationSession(0, Cancel));
    NetOnlyShuts(g, net(Silencing));
    BroadcastOnlyShuts(a, CalibrationTone(0, false));
    OnlyShutsComposes(g, a, b);
    NetOnlyShuts(b, net(Cancelling));
    OnlyShutsComposes(g, b, c);
    BroadcastOnlyShuts(c, CalibrationSession(0, Cancel));
    OnlyShutsComposes(g, c, d);
    RestoredOnlyShuts(d, originals, |originals|, now, net);
    OnlyShutsComposes(g, d, RestoredAmid(d, originals, |originals|, now, net).0);
  }

  lemma CloseAmidIsSafe(w: World, now: nat, net: Net)
    requires Inv(w)
    ensures Inv(CloseAmid(w, now, net))
  {
    ClosingOnlyShuts(w.registry, w.state.originals, now, net);
    var h := CloseAmid(w, now, net);
    if w.state.editing {
      EditingIsShut(w, h.registry);
    } else {
      IdleCloseIsSafe(w);
      ShuttingKeepsInv(w.(state := h.state), h.registry);
    }
  }

  lemma IdleCloseIsSafe(w: World)
    requires Inv(w) && !w.state.editing
    ensures Inv(w.(state := w.state.(pending := map[], draft := None, masterSeen := None, blocked := {})))
  {
  }

  lemma SetAmidIsSafe(w: World, master: nat, index: u16, now: nat, net: Net)
    requires Inv(w) && Current(w.state.library).Some?
    ensures Inv(SetAmid(w, master, index, now, net).world)
  {
    AmidKeepsInv(w, net, PanelCall);
    var amid := Amid(w, net, PanelCall);
    var r := PanelRequest(amid.registry, master, index);
    SameOnlyShuts(amid.registry, r.registry);
    ShuttingKeepsInv(amid, r.registry);
    NetOnlyShuts(r.registry, net(Gates));
  }

  lemma RequestVolumeAmidIsSafe(w: World, requested: u16, now: nat, net: Net)
    requires Inv(w)
    ensures Inv(RequestVolumeAmid(w, requested, now, net).world)
  {
    if !w.state.editing {
      AmidKeepsInv(w, net, Snapshot);
      var amid := Amid(w, net, Snapshot);
      match Chosen(w.state.library, Snapshots(amid.registry), requested)
      case None =>
      case Some((master, index)) => SetAmidIsSafe(amid, master, index, now, net);
    }
  }

  lemma ShutDownAmidIsSafe(w: World, net: Net)
    requires Inv(w)
    ensures Inv(ShutDownAmid(w, net))
  {
    NetOnlyShuts(w.registry, net(Gates));
    var shut := DenyAll(ApplyAll(w.registry, net(Gates)));
    NetOnlyShuts(shut, net(Cancelling));
    var cancelled := Broadcast(ApplyAll(shut, net(Cancelling)), CalibrationSession(0, Cancel));
    BroadcastOnlyShuts(ApplyAll(shut, net(Cancelling)), CalibrationSession(0, Cancel));
    NetOnlyShuts(cancelled, net(Silencing));
    BroadcastOnlyShuts(ApplyAll(cancelled, net(Silencing)), CalibrationTone(0, false));
  }

  lemma NextAmidIsSafe(w: World, e: AmidEvent)
    requires Inv(w)
    ensures Inv(NextAmid(w, e))
  {
    match e
    case Whole(event) => NextIsSafe(w, event);
    case Ticks(now, ioOk, net) => TickAmidIsSafe(w, now, ioOk, net);
    case Opens(net) => OpenAmidIsSafe(w, net);
    case Closes(now, net) => CloseAmidIsSafe(w, now, net);
    case Sets(requested, now, net) => RequestVolumeAmidIsSafe(w, requested, now, net);
    case ShutsDown(net) => ShutDownAmidIsSafe(w, net);
  }

  /** Gate safety over all runs in which the network is at work between any two calls. */
  lemma {:induction false} GatesAreSafeAmid(loaded: Option<Library>, events: seq<AmidEvent>)
    ensures GatesSafe(RunAmid(Initial(loaded), events)) && Inv(RunAmid(Initial(loaded), events))
  {
    if events != [] {
      GatesAreSafeAmid(loaded, events[..|events| - 1]);
      NextAmidIsSafe(RunAmid(Initial(loaded), events[..|events| - 1]), events[|events| - 1]);
    }
  }

  // -------------------------------------------------------------- the whole group

  /** The devices that a tick decides by. */
  ghost function Seen(w: World, net: Net): map<nat, DeviceStatus> {
    Snapshots(Amid(w, net, Snapshot).registry)
  }

  lemma ServeAmidIsAllOrNone(w: World, p: Profile, master: nat, devices: map<nat, DeviceStatus>, index: u16,
                             now: nat, ioOk: bool, net: Net)
    requires Idle(w) && Current(w.state.library) == Some(p)
    requires master in MatchingIds(p.master, devices) && master == Least(MatchingIds(p.master, devices))
    ensures AllOrNone(ServeAmid(w, p, master, devices, index, now, ioOk, net), devices)
  {
    var s := Follow(w.state, p, index, now);
    FollowMovesCurrent(w.state, p, index, now);
    var targets := GroupTargets(p, master, devices, index);
    TargetsIgnoreVolume(p, p.followers, devices, index, index);
    var v0 := Served(w.registry, s.pending, s.blocked, true);
    var v := ServedAmid(v0, devices, targets, |targets|, now, net);
    ServedReady(v0, devices, targets, |targets|, now, net);
    ServedOnlyShuts(v0, devices, targets, |targets|, now, net);
    ConcludeIsAllOrNone(w.(registry := v.registry, state := s.(pending := v.pending, blocked := v.blocked)),
                        v.ready, p, index, devices, targets, TickInput(now, ioOk, [], net(Gates)));
  }

  lemma DriveAmidIsAllOrNone(w: World, p: Profile, master: nat, devices: map<nat, DeviceStatus>,
                             now: nat, ioOk: bool, net: Net)
    requires Idle(w) && Current(w.state.library) == Some(p)
    requires master in MatchingIds(p.master, devices) && master == Least(MatchingIds(p.master, devices))
    ensures AllOrNone(DriveAmid(w, p, master, devices, now, ioOk, net), devices)
  {
    NetOnlyShuts(w.registry, net(TakingVolume));
    var w := Amid(w, net, TakingVolume);
    match Nearest(p, Wanted(w.registry, w.state, p, master), Participating(p, devices))
    case None => ShutIsSafe(Observe(w, master, devices), net);
    case Some(index) => ServeAmidIsAllOrNone(Observe(w, master, devices), p, master, devices, index, now, ioOk, net);
  }

  lemma SteerAmidIsAllOrNone(w: World, devices: map<nat, DeviceStatus>, now: nat, ioOk: bool, net: Net)
    requires Idle(w)
    ensures AllOrNone(SteerAmid(w, devices, now, ioOk, net), devices)
  {
    match Current(w.state.library)
    case None => ShutIsSafe(w, net);
    case Some(p) =>
      var masters := MatchingIds(p.master, devices);
      if |masters| != 1 {
        ShutIsSafe(w.(state := w.state.(masterSeen := None)), net);
      } else {
        var master, amid := Least(masters), Amid(w, net, Barrier);
        NetOnlyShuts(w.registry, net(Barrier));
        if IsFencing(amid, master) {
          FenceAmidIsSafe(amid, p, master, devices, now, net);
        } else {
          DriveAmidIsAllOrNone(amid, p, master, devices, now, ioOk, net);
        }
      }
  }

  /** When a tick's last call returns, no gate is open or exactly those of the group as the
      tick saw it are, each phone reporting its volume at that moment. */
  lemma TickAmidIsAllOrNone(w: World, now: nat, ioOk: bool, net: Net)
    requires Inv(w) && net(Ended) == []
    ensures AllOrNone(TickAmid(w, now, ioOk, net), Seen(w, net))
  {
    if w.state.editing {
      ShutIsSafe(w, net);
    } else {
      NetOnlyShuts(w.registry, net(Snapshot));
      var seen := Amid(w, net, Snapshot);
      var devices, ids := Snapshots(seen.registry), seen.registry.receivers.Keys;
      NetOnlyShuts(seen.registry, net(Judging));
      var g0 := ApplyAll(seen.registry, net(Judging));
      JudgedOnlyShuts(g0, w.state, ids, seen.registry.nextId, now, net);
      var (g, s) := Judged(g0, w.state, ids, seen.registry.nextId, now, net);
      SteerAmidIsAllOrNone(w.(registry := g, state := s), devices, now, ioOk, net);
    }
  }
}
