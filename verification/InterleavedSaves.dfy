/** What reaches the library file, with the network at work between any two calls
    (windows-server/src/application/volume_control.rs:75-83 and 431-616). */
module InterleavedSaves {
  import opened Numbers
  import opened ControlMessages
  import opened VolumeProfiles
  import opened RegistryModel
  import opened VolumeModel
  import opened VolumeRuns
  import opened InterleavedModel
  import opened GateSafety
  import opened InterleavedSafety
  import opened Persistence

  lemma ServeAmidKeeps(w: World, p: Profile, master: nat, devices: map<nat, DeviceStatus>, index: u16,
                       now: nat, ioOk: bool, net: Net, volumes: Volumes)
    requires Kept(w, volumes) && Current(w.state.library) == Some(p)
    requires IsSole(p.master, devices, master) && IsAvailable(p, Participating(p, devices), index)
    requires GroupReached(p, devices, index) ==> (p.id, index) in volumes
    ensures Kept(ServeAmid(w, p, master, devices, index, now, ioOk, net), volumes)
  {
    var s := Follow(w.state, p, index, now);
    FollowKeeps(w.state, p, index, now, volumes);
    FollowMovesCurrent(w.state, p, index, now);
    var targets := GroupTargets(p, master, devices, index);
    var v := ServedAmid(Served(w.registry, s.pending, s.blocked, true), devices, targets, |targets|, now, net);
    ServedReady(Served(w.registry, s.pending, s.blocked, true), devices, targets, |targets|, now, net);
    if v.ready {
      ReadyMeansReached(p, master, devices, index, s.pending, s.blocked);
    }
    var served := w.(registry := v.registry, state := s.(pending := v.pending, blocked := v.blocked));
    SameLibraryKeeps(w.(state := s), served, volumes);
    ConcludeKeeps(served, v.ready, p, index, Expected(devices, targets), TickInput(now, ioOk, [], net(Gates)),
                  volumes);
  }

  lemma DriveAmidKeeps(w: World, p: Profile, master: nat, devices: map<nat, DeviceStatus>,
                       now: nat, ioOk: bool, net: Net, volumes: Volumes)
    requires Kept(w, volumes) && Current(w.state.library) == Some(p) && IsSole(p.master, devices, master)
    requires ReachedIn(p, devices, volumes)
    ensures Kept(DriveAmid(w, p, master, devices, now, ioOk, net), volumes)
  {
    var amid := Amid(w, net, TakingVolume);
    SameLibraryKeeps(w, Observe(amid, master, devices), volumes);
    match Nearest(p, Wanted(amid.registry, amid.state, p, master), Participating(p, devices))
    case None => SameLibraryKeeps(w, Shut(Observe(amid, master, devices), net), volumes);
    case Some(index) =>
      ServeAmidKeeps(Observe(amid, master, devices), p, master, devices, index, now, ioOk, net, volumes);
  }

  lemma SteerAmidKeeps(w: World, devices: map<nat, DeviceStatus>, now: nat, ioOk: bool, net: Net, volumes: Volumes)
    requires Kept(w, volumes)
    requires Current(w.state.library).Some? ==> ReachedIn(Current(w.state.library).value, devices, volumes)
    ensures Kept(SteerAmid(w, devices, now, ioOk, net), volumes)
  {
    match Current(w.state.library)
    case None => SameLibraryKeeps(w, Shut(w, net), volumes);
    case Some(p) =>
      var masters := MatchingIds(p.master, devices);
      if |masters| != 1 {
        SameLibraryKeeps(w, Shut(w.(state := w.state.(masterSeen := None)), net), volumes);
      } else {
        var master, amid := Least(masters), Amid(w, net, Barrier);
        SoleMaster(p.master, devices);
        SameLibraryKeeps(w, amid, volumes);
        if IsFencing(amid, master) {
          var ready := Amid(Shut(amid, net), net, PanelCall);
          FenceLeavesLibrary(ready, p, master, devices, now);
          SameLibraryKeeps(w, Fence(ready, p, master, devices, now), volumes);
        } else {
          DriveAmidKeeps(amid, p, master, devices, now, ioOk, net, volumes);
        }
      }
  }

  lemma {:induction false} JudgedState(g: Registry, s: State, ids: set<nat>, n: nat, now: nat, net: Net)
    ensures var t := Judged(g, s, ids, n, now, net).1; t == s.(pending := t.pending, blocked := t.blocked)
  {
    if n > 0 {
      JudgedState(g, s, ids, n - 1, now, net);
    }
  }

  lemma TickAmidKeeps(w: World, now: nat, ioOk: bool, net: Net, volumes: Volumes)
    requires Kept(w, volumes)
    ensures Kept(TickAmid(w, now, ioOk, net), volumes + TickSanctions(Amid(w, net, Snapshot)))
  {
    var seen, more := Amid(w, net, Snapshot), volumes + TickSanctions(Amid(w, net, Snapshot));
    if w.state.editing {
      SameLibraryKeeps(w, Shut(w, net), volumes);
    } else {
      var devices, ids := Snapshots(seen.registry), seen.registry.receivers.Keys;
      var (g, s) := Judged(ApplyAll(seen.registry, net(Judging)), w.state, ids, seen.registry.nextId, now, net);
      JudgedState(ApplyAll(seen.registry, net(Judging)), w.state, ids, seen.registry.nextId, now, net);
      if Current(w.state.library).Some? {
        TickSanctionsReached(seen, volumes);
      }
      SteerAmidKeeps(seen.(registry := g, state := s), devices, now, ioOk, net, more);
      SameLibraryKeeps(SteerAmid(seen.(registry := g, state := s), devices, now, ioOk, net),
                       TickAmid(w, now, ioOk, net), more);
    }
  }

  lemma SetAmidKeeps(w: World, master: nat, index: u16, now: nat, net: Net, volumes: Volumes)
    requires Kept(w, volumes) && Current(w.state.library).Some?
    requires var p := Current(w.state.library).value; p.master.minimum <= index <= p.master.maximum
    ensures Kept(SetAmid(w, master, index, now, net).world, volumes)
  {
    var outcome, id := SetAmid(w, master, index, now, net), Current(w.state.library).value.id;
    RequestedIsNotPersisted(w.state, index);
    hide PanelRequest, DenyAll, ApplyAll, WithVolume, Persisted, Loadable, AllFrom, SavesKept;
    if outcome.ok {
      var t := w.state.(library := WithVolume(w.state.library, id, index));
      PersistedSame(t, outcome.world.state);
    }
  }

  lemma PersistedSame(s: State, t: State)
    requires s.library == t.library && s.confirmed == t.confirmed
    ensures Persisted(s) == Persisted(t) && (ConfirmedFits(s) <==> ConfirmedFits(t))
  {
  }

  lemma RequestVolumeAmidKeeps(w: World, requested: u16, now: nat, net: Net, volumes: Volumes)
    requires Kept(w, volumes)
    ensures Kept(RequestVolumeAmid(w, requested, now, net).world, volumes)
  {
    hide SetAmid, Kept;
    if !w.state.editing {
      var amid := Amid(w, net, Snapshot);
      SameLibraryKeeps(w, amid, volumes);
      match Chosen(w.state.library, Snapshots(amid.registry), requested)
      case None =>
      case Some((master, index)) => SetAmidKeeps(amid, master, index, now, net, volumes);
    }
  }

  // -------------------------------------------------------------------------- runs

  /** The volumes an event makes fit to be saved. */
  ghost function SanctionsAmid(w: World, e: AmidEvent): Volumes {
    match e
    case Whole(event) => Sanctions(w, event)
    case Ticks(_, _, net) => TickSanctions(Amid(w, net, Snapshot))
    case _ => {}
  }

  ghost function SanctionedByAmid(loaded: Option<Library>, events: seq<AmidEvent>): Volumes {
    if events == [] then LoadedVolumes(loaded) else
    var before := events[..|events| - 1];
    SanctionedByAmid(loaded, before) + SanctionsAmid(RunAmid(Initial(loaded), before), events[|events| - 1])
  }

  ghost predicate DraftsFitAmid(loaded: Option<Library>, events: seq<AmidEvent>) {
    forall k | 0 <= k < |events| && events[k].Whole? && events[k].event.SaveEvent? ::
      DraftFits(RunAmid(Initial(loaded), events[..k]).state, events[k].event.copy)
  }

  lemma OtherAmidKeeps(w: World, e: AmidEvent, volumes: Volumes)
    requires Kept(w, volumes) && (e.Opens? || e.Closes? || e.ShutsDown?)
    ensures Kept(NextAmid(w, e), volumes)
  {
    SameLibraryKeeps(w, NextAmid(w, e), volumes);
  }

  lemma NextAmidKeeps(w: World, e: AmidEvent, volumes: Volumes)
    requires Kept(w, volumes)
    requires e.Whole? && e.event.SaveEvent? ==> DraftFits(w.state, e.event.copy)
    ensures Kept(NextAmid(w, e), volumes + SanctionsAmid(w, e))
  {
    hide Kept, Next, TickAmid, Sanctions, TickSanctions, RequestVolumeAmid;
    match e
    case Whole(event) => NextKeeps(w, event, volumes);
    case Ticks(now, ioOk, net) => TickAmidKeeps(w, now, ioOk, net, volumes);
    case Sets(requested, now, net) =>
      assert volumes + {} == volumes;
      RequestVolumeAmidKeeps(w, requested, now, net, volumes);
    case _ =>
      assert volumes + {} == volumes;
      OtherAmidKeeps(w, e, volumes);
  }

  /** Persistence over all runs in which the network is at work between any two calls. */
  lemma {:induction false} SavesAreSoundAmid(loaded: Option<Library>, events: seq<AmidEvent>)
    requires loaded.Some? ==> Loadable(loaded.value)
    requires DraftsFitAmid(loaded, events)
    ensures Kept(RunAmid(Initial(loaded), events), SanctionedByAmid(loaded, events))
    ensures forall l <- RunAmid(Initial(loaded), events).saves ::
      Loadable(l) && AllFrom(l, SanctionedByAmid(loaded, events))
  {
    if events == [] {
      SavesAreSound(loaded, []);
    } else {
      var before, e := events[..|events| - 1], events[|events| - 1];
      assert forall k | 0 <= k < |before| :: before[..k] == events[..k];
      SavesAreSoundAmid(loaded, before);
      NextAmidKeeps(RunAmid(Initial(loaded), before), e, SanctionedByAmid(loaded, before));
    }
  }
}
