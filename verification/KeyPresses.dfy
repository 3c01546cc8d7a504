/** A volume key pressed at the master leads the group
    (windows-server/src/application/volume_control.rs:467-598,
    windows-server/src/application/registry.rs:313-389). */
module KeyPresses {
  import opened Numbers
  import opened ControlMessages
  import opened VolumeProfiles
  import opened RegistryModel
  import opened VolumeModel
  import opened VolumeRuns
  import opened InterleavedModel
  import opened GateSafety
  import opened Persistence
  import Convergence
  import opened ReportEffects
  import opened AtomicSteps

  // ------------------------------------------------- what the network leaves alone

  /** None of the events is a report of the phone or its leaving. */
  predicate Spares(events: seq<NetEvent>, id: nat) {
    forall e <- events :: !(e.Report? && e.id == id) && !(e.Leave? && e.id == id)
  }

  /** The receiver's unsolicited volume is `press`, and no barrier waits for a receipt. */
  predicate Holds(g: Registry, id: nat, press: Option<u16>) {
    && id in g.receivers && id < g.nextId
    && g.receivers[id].unsolicited == press && g.receivers[id].panelBarrier.None?
  }

  lemma ApplyHolds(g: Registry, event: NetEvent, id: nat, press: Option<u16>)
    requires Holds(g, id, press) && Spares([event], id)
    ensures Holds(Apply(g, event), id, press)
  {
    assert event in [event];
  }

  lemma {:induction false} ApplyAllHolds(g: Registry, events: seq<NetEvent>, id: nat, press: Option<u16>)
    requires Holds(g, id, press) && Spares(events, id)
    ensures Holds(ApplyAll(g, events), id, press)
    decreases |events|
  {
    hide Holds, Apply;
    if events != [] {
      assert events[0] in events;
      assert forall e <- events[1..] :: e in events;
      ApplyHolds(g, events[0], id, press);
      ApplyAllHolds(Apply(g, events[0]), events[1..], id, press);
    }
  }

  /** The network spares the master between the tick's snapshot and its look at the press. */
  ghost predicate SparesEarly(net: Net, id: nat) {
    && Spares(net(Judging), id) && Spares(net(Barrier), id) && Spares(net(TakingVolume), id)
    && forall other: nat :: Spares(net(Taking(other)), id)
  }

  lemma JudgedOneHolds(g: Registry, events: seq<NetEvent>, s: State, other: nat, p: Pending, now: nat, id: nat,
                       press: Option<u16>)
    requires Holds(g, id, press) && Spares(events, id)
    ensures Holds(JudgedOne(ApplyAll(g, events), s, other, p, now).0, id, press)
  {
    ApplyAllHolds(g, events, id, press);
    hide ApplyAll;
  }

  lemma {:induction false} JudgedHolds(g: Registry, s: State, ids: set<nat>, n: nat, now: nat, net: Net, id: nat,
                                       press: Option<u16>)
    requires Holds(g, id, press) && SparesEarly(net, id)
    ensures Holds(Judged(g, s, ids, n, now, net).0, id, press)
  {
    if n > 0 {
      JudgedHolds(g, s, ids, n - 1, now, net, id, press);
      if n - 1 in s.pending && n - 1 in ids {
        assert Spares(net(Taking(n - 1)), id);
        hide Holds, ApplyAll, JudgedOne, SparesEarly;
        var (h, t) := Judged(g, s, ids, n - 1, now, net);
        JudgedOneHolds(h, net(Taking(n - 1)), t, n - 1, s.pending[n - 1], now, id, press);
      }
    }
  }

  /** Judging only drops requests, and blocks only receivers that had one. */
  lemma {:induction false} JudgedOnlyDrops(g: Registry, s: State, ids: set<nat>, n: nat, now: nat, net: Net)
    ensures var t := Judged(g, s, ids, n, now, net).1;
            && t == s.(pending := t.pending, blocked := t.blocked)
            && t.pending.Keys <= s.pending.Keys && t.blocked <= s.blocked + s.pending.Keys
  {
    if n > 0 {
      JudgedOnlyDrops(g, s, ids, n - 1, now, net);
      hide ApplyAll, TakeReply, Judge;
    }
  }

  // --------------------------------------------------------------- what a tick follows

  /** `i` is the available index nearest to `requested`, the lower one on a tie. */
  ghost predicate IsNearestAvailable(p: Profile, devices: map<nat, DeviceStatus>, requested: u16, i: u16) {
    && IsAvailable(p, Participating(p, devices), i)
    && forall j: u16 | IsAvailable(p, Participating(p, devices), j) && j != i ::
         AbsDiff(i, requested) < AbsDiff(j, requested)
         || (AbsDiff(i, requested) == AbsDiff(j, requested) && i < j)
  }

  lemma NearestIsChosen(p: Profile, devices: map<nat, DeviceStatus>, requested: u16, i: u16)
    requires IsNearestAvailable(p, devices, requested, i)
    ensures Nearest(p, requested, Participating(p, devices)) == Some(i)
  {
  }

  /** A tick without a calibration window, with one master, nothing to fence and `master` seen
      before or not. */
  ghost predicate Steers(w: World, p: Profile, devices: map<nat, DeviceStatus>, master: nat) {
    && !w.state.editing && Current(w.state.library) == Some(p) && !w.state.needsFence
    && IsSole(p.master, devices, master)
  }

  /** The tick moved the profile to `i` and remembers what the master showed; a move is unsaved
      until it has settled. */
  ghost predicate Followed(w: World, later: World, p: Profile, devices: map<nat, DeviceStatus>, master: nat, i: u16) {
    && Current(later.state.library) == Some(p.(volume := i))
    && master in devices && later.state.masterSeen == Some((master, devices[master].volume))
    && (i != p.volume ==> later.state.dirty) && !later.state.needsFence && !later.state.editing
  }

  lemma ServeFollows(w: World, p: Profile, master: nat, devices: map<nat, DeviceStatus>, index: u16,
                     now: nat, ioOk: bool, net: Net)
    requires Current(w.state.library) == Some(p)
    ensures var s := ServeAmid(w, p, master, devices, index, now, ioOk, net).state;
            && Current(s.library) == Some(p.(volume := index)) && s.masterSeen == w.state.masterSeen
            && (index != p.volume ==> s.dirty) && s.needsFence == w.state.needsFence
            && s.editing == w.state.editing
  {
    FollowMovesCurrent(w.state, p, index, now);
    hide GroupTargets, ServedAmid, Expected, Approve, ApplyAll, WithVolume, Current, Persisted;
  }

  /** What the tick follows: a press at a master seen before, and the profile's volume otherwise. */
  function Lead(s: State, p: Profile, master: nat, press: Option<u16>): u16 {
    if press.Some? && s.masterSeen.Some? && s.masterSeen.value.0 == master then press.value else p.volume
  }

  lemma DriveServes(w: World, p: Profile, master: nat, devices: map<nat, DeviceStatus>,
                    now: nat, ioOk: bool, net: Net, press: Option<u16>, i: u16) returns (ready: World)
    requires master in devices && Holds(w.registry, master, press) && Spares(net(TakingVolume), master)
    requires IsNearestAvailable(p, devices, Lead(w.state, p, master, press), i)
    ensures DriveAmid(w, p, master, devices, now, ioOk, net)
         == ServeAmid(ready, p, master, devices, i, now, ioOk, net)
    ensures ready.state == w.state.(masterSeen := Some((master, devices[master].volume)))
  {
    hide ServeAmid, Nearest, IsNearestAvailable, ApplyAll, Participating, Shut, Spares, TakeUnsolicited;
    var amid := Amid(w, net, TakingVolume);
    ready := Observe(amid, master, devices);
    ApplyAllHolds(w.registry, net(TakingVolume), master, press);
    NearestIsChosen(p, devices, Lead(w.state, p, master, press), i);
  }

  /** With nothing to fence the group is brought to the available volume nearest to what leads. */
  lemma SteerServes(w: World, p: Profile, master: nat, devices: map<nat, DeviceStatus>,
                    now: nat, ioOk: bool, net: Net, press: Option<u16>, i: u16) returns (ready: World)
    requires Steers(w, p, devices, master) && Holds(w.registry, master, press)
    requires Spares(net(Barrier), master) && Spares(net(TakingVolume), master)
    requires IsNearestAvailable(p, devices, Lead(w.state, p, master, press), i)
    ensures SteerAmid(w, devices, now, ioOk, net) == ServeAmid(ready, p, master, devices, i, now, ioOk, net)
    ensures master in devices && ready.state == w.state.(masterSeen := Some((master, devices[master].volume)))
  {
    SoleIsLeast(p.master, devices, master);
    hide ServeAmid, DriveAmid, IsNearestAvailable, ApplyAll, Shut, Fence, MatchingIds, Spares, Current, IsSole;
    ApplyAllHolds(w.registry, net(Barrier), master, press);
    ready := DriveServes(Amid(w, net, Barrier), p, master, devices, now, ioOk, net, press, i);
  }

  lemma SoleIsLeast(r: DeviceRange, devices: map<nat, DeviceStatus>, id: nat)
    requires IsSole(r, devices, id)
    ensures id in devices && |MatchingIds(r, devices)| == 1 && Least(MatchingIds(r, devices)) == id
  {
    assert id in MatchingIds(r, devices);
  }

  /** A key pressed at a master that a tick has seen before decides the next tick: the profile
      moves to the pressed volume, or the available one nearest to it. A master newly seen or
      without a press keeps the profile's volume, as far as it is available. */
  lemma PressLeads(w: World, p: Profile, master: nat, now: nat, ioOk: bool, net: Net, press: Option<u16>, i: u16)
    requires var seen := Amid(w, net, Snapshot);
             && Steers(w, p, Snapshots(seen.registry), master) && Holds(seen.registry, master, press)
    requires SparesEarly(net, master)
    requires IsNearestAvailable(p, Snapshots(Amid(w, net, Snapshot).registry), Lead(w.state, p, master, press), i)
    ensures Followed(w, TickAmid(w, now, ioOk, net), p, Snapshots(Amid(w, net, Snapshot).registry), master, i)
  {
    var devices := Snapshots(Amid(w, net, Snapshot).registry);
    var ready := TickServes(w, p, master, now, ioOk, net, press, i);
    ServeFollows(ready, p, master, devices, i, now, ioOk, net);
    hide TickAmid, ServeAmid, ApplyAll, IsNearestAvailable, Holds, SparesEarly, IsSole;
  }

  /** The tick ends by bringing the group to that volume. */
  lemma TickServes(w: World, p: Profile, master: nat, now: nat, ioOk: bool, net: Net, press: Option<u16>, i: u16)
    returns (ready: World)
    requires var seen := Amid(w, net, Snapshot);
             && Steers(w, p, Snapshots(seen.registry), master) && Holds(seen.registry, master, press)
    requires SparesEarly(net, master)
    requires IsNearestAvailable(p, Snapshots(Amid(w, net, Snapshot).registry), Lead(w.state, p, master, press), i)
    ensures var devices := Snapshots(Amid(w, net, Snapshot).registry);
            && TickAmid(w, now, ioOk, net)
               == Amid(ServeAmid(ready, p, master, devices, i, now, ioOk, net), net, Ended)
            && master in devices && ready.state.masterSeen == Some((master, devices[master].volume))
            && ready.state == w.state.(masterSeen := ready.state.masterSeen, pending := ready.state.pending,
                                       blocked := ready.state.blocked)
            && ready.state.pending.Keys <= w.state.pending.Keys
            && ready.state.blocked <= w.state.blocked + w.state.pending.Keys
  {
    var seen := Amid(w, net, Snapshot);
    var devices, ids := Snapshots(seen.registry), seen.registry.receivers.Keys;
    var g0 := ApplyAll(seen.registry, net(Judging));
    ApplyAllHolds(seen.registry, net(Judging), master, press);
    JudgedHolds(g0, w.state, ids, seen.registry.nextId, now, net, master, press);
    JudgedOnlyDrops(g0, w.state, ids, seen.registry.nextId, now, net);
    var (g, s) := Judged(g0, w.state, ids, seen.registry.nextId, now, net);
    ready := SteerServes(w.(registry := g, state := s), p, master, devices, now, ioOk, net, press, i);
    hide SteerAmid, ServeAmid, Judged, ApplyAll, IsNearestAvailable, Holds, SparesEarly, IsSole, Current;
  }

  /** The same for the tick as one step. */
  lemma PressLeadsAtOnce(w: World, p: Profile, master: nat, input: TickInput, press: Option<u16>, i: u16)
    requires Numbered(w.registry) && Steers(w, p, Snapshots(w.registry), master)
    requires Holds(w.registry, master, press) && Spares(input.early, master)
    requires IsNearestAvailable(p, Snapshots(w.registry), Lead(w.state, p, master, press), i)
    ensures Followed(w, Tick(w, input), p, Snapshots(w.registry), master, i)
  {
    hide Tick, TickAmid, Followed, Holds, Steers, Spares, IsNearestAvailable;
    TickIsAmid(w, input);
    var fencing :| Tick(w, input) == TickAmid(w, input.now, input.ioOk, TwoPoints(input, fencing));
    var net := TwoPoints(input, fencing);
    TwoPointsSpare(w, input, fencing, master);
    PressLeads(w, p, master, input.now, input.ioOk, net, press, i);
  }

  lemma TwoPointsSpare(w: World, input: TickInput, fencing: bool, id: nat)
    requires Spares(input.early, id)
    ensures Amid(w, TwoPoints(input, fencing), Snapshot) == w && SparesEarly(TwoPoints(input, fencing), id)
  {
  }

  /** The known master reports a press unasked. */
  ghost predicate Presses(w: World, master: nat, status: DeviceStatus) {
    && master in w.registry.receivers && master < w.registry.nextId
    && IsPlausible(status) && IsPress(w.registry.receivers[master], Sanitize(status))
    && IsKnown(w.registry.receivers[master], Sanitize(status))
  }

  /** From the key to the group: when the master that leads reports another volume unasked, the
      next tick moves the profile to it, or the available volume nearest to it, whatever else
      the network does in between, as long as the master neither reports again nor leaves. */
  lemma ReportedPressLeads(w: World, p: Profile, master: nat, status: DeviceStatus, now: nat, ioOk: bool, net: Net,
                           i: u16)
    requires Presses(w, master, status) && w.state.masterSeen.Some? && w.state.masterSeen.value.0 == master
    requires Spares(net(Snapshot), master) && SparesEarly(net, master)
    requires var seen := Amid(NextAmid(w, Whole(Net(Report(master, status)))), net, Snapshot);
             && Steers(seen, p, Snapshots(seen.registry), master)
             && IsNearestAvailable(p, Snapshots(seen.registry), status.volume, i)
    ensures var reported := NextAmid(w, Whole(Net(Report(master, status))));
            Followed(reported, NextAmid(reported, Ticks(now, ioOk, net)), p,
                     Snapshots(Amid(reported, net, Snapshot).registry), master, i)
  {
    var reported := NextAmid(w, Whole(Net(Report(master, status))));
    PressIsHeld(w, master, status);
    ApplyAllHolds(reported.registry, net(Snapshot), master, Some(status.volume));
    PressLeads(reported, p, master, now, ioOk, net, Some(status.volume), i);
  }

  lemma PressIsHeld(w: World, master: nat, status: DeviceStatus)
    requires Presses(w, master, status)
    ensures Holds(Next(w, Net(Report(master, status))).registry, master, Some(status.volume))
  {
    StoredIsCleaned(w.registry, master, status);
    PressIsRemembered(w.registry, master, status);
    VolumeIsObserved(w.registry, master, status);
    ReportReachesOne(w.registry, master, status);
  }

  // ----------------------------------------------------------- the followers are asked

  /** Target `t` was asked for its volume, or could not be. */
  predicate IsAsked(pending: map<nat, Pending>, blocked: set<nat>, t: (nat, u16)) {
    t.0 in blocked || (t.0 in pending && pending[t.0].index == t.1)
  }

  lemma {:induction false} ServedAsks(v: Served, devices: map<nat, DeviceStatus>, targets: seq<(nat, u16)>, n: nat,
                                      now: nat, net: Net, k: nat)
    requires k < |targets| && n <= |targets| && Convergence.DistinctTargets(targets)
    requires targets[k].0 in devices && devices[targets[k].0].volume != targets[k].1
    requires targets[k].0 !in v.pending && targets[k].0 !in v.blocked
    ensures var u := ServedAmid(v, devices, targets, n, now, net);
            if n <= k then targets[k].0 !in u.pending && targets[k].0 !in u.blocked
            else IsAsked(u.pending, u.blocked, targets[k])
  {
    if n > 0 {
      ServedAsks(v, devices, targets, n - 1, now, net, k);
      assert n - 1 != k ==> targets[n - 1].0 != targets[k].0;
      hide RestoreRequest, ApplyAll;
    }
  }

  lemma ServeAsks(w: World, p: Profile, master: nat, devices: map<nat, DeviceStatus>, index: u16,
                  now: nat, ioOk: bool, net: Net, t: (nat, u16))
    requires ValidProfile(p) && IsSole(p.master, devices, master)
    requires t in GroupTargets(p, master, devices, index) && t.0 in devices && devices[t.0].volume != t.1
    requires t.0 !in w.state.pending && t.0 !in w.state.blocked
    ensures var s := ServeAmid(w, p, master, devices, index, now, ioOk, net).state;
            IsAsked(s.pending, s.blocked, t)
  {
    var s, targets := Follow(w.state, p, index, now), GroupTargets(p, master, devices, index);
    Convergence.GroupIsDistinct(p, master, devices, index);
    var k :| 0 <= k < |targets| && targets[k] == t;
    var v := ServedAmid(Served(w.registry, s.pending, s.blocked, true), devices, targets, |targets|, now, net);
    ServedAsks(Served(w.registry, s.pending, s.blocked, true), devices, targets, |targets|, now, net, k);
    ConcludeKeepsRequests(w.(registry := v.registry, state := s.(pending := v.pending, blocked := v.blocked)),
                          v.ready, p, index, Expected(devices, targets), TickInput(now, ioOk, [], net(Gates)));
    hide ServedAmid, GroupTargets, WithVolume, Conclude, Convergence.DistinctTargets, ValidProfile, IsSole;
  }

  lemma ConcludeKeepsRequests(w: World, ready: bool, p: Profile, index: u16, expected: map<nat, DeviceStatus>,
                              input: TickInput)
    ensures var s := Conclude(w, ready, p, index, expected, input).state;
            s.pending == w.state.pending && s.blocked == w.state.blocked
  {
  }

  /** A calibrated follower, connected once, that is not at the volume mapped to what the tick
      follows is asked for it by the same tick, unless a request to it is under way or blocked. */
  lemma PressAsksFollowers(w: World, p: Profile, master: nat, now: nat, ioOk: bool, net: Net, press: Option<u16>,
                           i: u16, f: Follower, id: nat)
    requires var seen := Amid(w, net, Snapshot);
             && Steers(w, p, Snapshots(seen.registry), master) && Holds(seen.registry, master, press)
    requires SparesEarly(net, master) && ValidProfile(p)
    requires IsNearestAvailable(p, Snapshots(Amid(w, net, Snapshot).registry), Lead(w.state, p, master, press), i)
    requires f in p.followers && f.mapping != map[] && id !in w.state.pending && id !in w.state.blocked
    requires IsSole(f.device, Snapshots(Amid(w, net, Snapshot).registry), id)
    ensures i in f.mapping && id in Snapshots(Amid(w, net, Snapshot).registry)
    ensures var later, devices := TickAmid(w, now, ioOk, net).state, Snapshots(Amid(w, net, Snapshot).registry);
            devices[id].volume != f.mapping[i] ==> IsAsked(later.pending, later.blocked, (id, f.mapping[i]))
  {
    var devices := Snapshots(Amid(w, net, Snapshot).registry);
    SoleParticipates(p, f, devices, id, i);
    TargetsCover(p, p.followers, devices, i, f, id);
    var ready := TickServes(w, p, master, now, ioOk, net, press, i);
    if devices[id].volume != f.mapping[i] {
      ServeAsks(ready, p, master, devices, i, now, ioOk, net, (id, f.mapping[i]));
    }
    hide TickAmid, ServeAmid, ApplyAll, IsNearestAvailable, Holds, SparesEarly, IsSole, IsAsked, Targets, ValidProfile;
  }
}
