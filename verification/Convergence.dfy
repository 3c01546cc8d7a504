/** With phones that acknowledge what they are asked, the third tick at the latest opens the
    whole group (windows-server/src/application/volume_control.rs:431-600 and
    registry.rs:224-254, 321-389).

    Time goes in rounds here: the controller ticks, and then every phone takes the messages
    that were queued for it and answers each request. Settling drops the rounds. A calm world
    is one with nothing blocked and nothing unanswered, one phone that matches the master and
    an index for which every participating follower is calibrated. */
module Convergence {
  import opened Numbers
  import opened ControlMessages
  import opened Text
  import opened VolumeProfiles
  import opened RegistryModel
  import opened VolumeModel
  import opened GateSafety
  import opened Persistence

  // ------------------------------------------------------------ obedient phones

  /** The report of a phone that has set its volume as asked. */
  function Receipt(d: DeviceStatus, request: nat, index: u16): DeviceStatus {
    d.(requestId := request, volume := index, failed := false)
  }

  ghost function AckOne(r: Receiver, request: nat, index: u16): Receiver {
    if r.device.Some? && InRange(Receipt(r.device.value, request, index))
    then UpdateReceiver(r, Sanitize(Receipt(r.device.value, request, index))) else r
  }

  /** The phone takes its queued messages in order and acknowledges each SetVolume. */
  ghost function AckQueue(r: Receiver): Receiver
    decreases |r.controls|
  {
    if r.controls == [] then r else
    var taken := r.(controls := r.controls[1..]);
    match r.controls[0]
    case SetVolume(request, index, _) =>
      assert AckOne(taken, request, index).controls == taken.controls;
      AckQueue(AckOne(taken, request, index))
    case _ => AckQueue(taken)
  }

  ghost function Acknowledge(g: Registry): Registry {
    g.(receivers := map id | id in g.receivers :: AckQueue(g.receivers[id]))
  }

  /** Acknowledging is nothing but a message sent and a report received. */
  lemma AckIsNetwork(g: Registry, id: nat)
    requires id in g.receivers && g.receivers[id].controls != [] && g.receivers[id].controls[0].SetVolume?
    requires g.receivers[id].device.Some?
    ensures var r := g.receivers[id];
            var m := r.controls[0];
            Apply(Apply(g, Transmitted(id)), Report(id, Receipt(r.device.value, m.requestId, m.index)))
            == g.(receivers := g.receivers[id := AckOne(r.(controls := r.controls[1..]), m.requestId, m.index)])
  {
  }

  predicate Adjustable(d: DeviceStatus) { d.speaker && !d.fixed && !d.failed }

  predicate CleanId(id: string) {
    1 <= |id| <= MAX_NAME && forall c <- id :: IsAlphanumeric(c) || c == '-'
  }

  /** The same device, whatever its volume, name and last answered request. */
  predicate SameHandset(a: DeviceStatus, b: DeviceStatus) {
    a == b.(volume := a.volume, name := a.name, requestId := a.requestId)
  }

  lemma CleanIdIsKept(d: DeviceStatus)
    requires CleanId(d.deviceId)
    ensures Sanitize(d).deviceId == d.deviceId
  {
    FilterKeepsAll(d.deviceId, IsKeptInId);
  }

  /** What an acknowledged request leaves of a receiver that had nothing else queued. */
  lemma AskedAndAcked(r: Receiver, request: nat, index: u16, purpose: VolumePurpose)
    requires r.controls == [SetVolume(request, index, purpose)] && request != 0
    requires r.device.Some? && Adjustable(r.device.value) && CleanId(r.device.value.deviceId)
    requires r.device.value.minimum <= index <= r.device.value.maximum <= MAX_INDEX
    ensures var a := AckQueue(r);
            && a.controls == [] && a.capacity == r.capacity && a.connected == r.connected
            && a.device.Some? && SameHandset(a.device.value, r.device.value) && a.device.value.volume == index
            && request in a.replies && Applied(a.replies[request], index)
            && a.panelBarrier == (if r.panelBarrier == Some(request) then None else r.panelBarrier)
            && a.unsolicited == r.unsolicited
  {
    var taken := r.(controls := r.controls[1..]);
    var receipt := Receipt(r.device.value, request, index);
    CleanIdIsKept(receipt);
    var a := AckOne(taken, request, index);
    assert a.controls == [];
    assert AckQueue(a) == a;
  }

  // ----------------------------------------------------------------- calm worlds

  predicate QuietInput(input: TickInput) { input.early == [] && input.late == [] }

  /** Every outstanding request has been answered as asked. */
  ghost predicate Answered(g: Registry, pending: map<nat, Pending>) {
    forall id <- pending ::
      && id in g.receivers && pending[id].request in g.receivers[id].replies
      && Applied(g.receivers[id].replies[pending[id].request], pending[id].index)
  }

  /** No message is waiting and every receiver takes the next one. */
  ghost predicate QueuesFree(g: Registry) {
    forall id <- g.receivers ::
      g.receivers[id].controls == [] && g.receivers[id].connected && g.receivers[id].capacity >= 1
  }

  /** One master is connected and the participating followers share a calibrated index. */
  ghost predicate GroupConnected(p: Profile, master: nat, devices: map<nat, DeviceStatus>) {
    && IsSole(p.master, devices, master)
    && exists i: u16 :: IsAvailable(p, Participating(p, devices), i)
  }

  /** Not editing, nothing blocked, nothing unanswered, one matching master and a common
      calibrated index. */
  ghost predicate Calm(w: World, p: Profile, master: nat) {
    && !w.state.editing && Loadable(w.state.library) && Current(w.state.library) == Some(p)
    && w.state.blocked == {} && Answered(w.registry, w.state.pending)
    && QueuesFree(w.registry) && w.registry.nextRequest >= 1
    && GroupConnected(p, master, Snapshots(w.registry))
  }

  predicate Fenced(w: World, master: nat) {
    w.state.needsFence || HasPanelBarrier(w.registry, master)
  }

  /** Calm, no barrier to renew, and every device of the group at its volume. */
  ghost predicate Converged(w: World, p: Profile, master: nat) {
    && Calm(w, p, master) && !Fenced(w, master) && Unsolicited(w.registry, master).None?
    && IsAvailable(p, Participating(p, Snapshots(w.registry)), p.volume)
    && AtVolumes(Snapshots(w.registry), GroupTargets(p, master, Snapshots(w.registry), p.volume))
  }

  predicate AtVolumes(devices: map<nat, DeviceStatus>, targets: seq<(nat, u16)>) {
    forall t <- targets :: t.0 in devices && devices[t.0].volume == t.1
  }

  // ------------------------------------------------------------ the same handsets

  ghost predicate SameHandsets(a: map<nat, DeviceStatus>, b: map<nat, DeviceStatus>) {
    a.Keys == b.Keys && forall id <- a :: SameHandset(a[id], b[id])
  }

  /** Matching looks at nothing that an acknowledged volume changes. */
  lemma HandsetsMatchAlike(p: Profile, a: map<nat, DeviceStatus>, b: map<nat, DeviceStatus>)
    requires SameHandsets(a, b)
    ensures forall r: DeviceRange :: MatchingIds(r, a) == MatchingIds(r, b)
    ensures Participating(p, a) == Participating(p, b)
  {
  }

  lemma {:induction false} HandsetsTargetAlike(
    p: Profile, followers: seq<Follower>, a: map<nat, DeviceStatus>, b: map<nat, DeviceStatus>, index: u16)
    requires SameHandsets(a, b)
    ensures Targets(p, followers, a, index) == Targets(p, followers, b, index)
  {
    HandsetsMatchAlike(p, a, b);
    if followers != [] {
      HandsetsTargetAlike(p, followers[1..], a, b, index);
    }
  }

  lemma HandsetsConnectAlike(p: Profile, master: nat, a: map<nat, DeviceStatus>, b: map<nat, DeviceStatus>)
    requires SameHandsets(a, b) && GroupConnected(p, master, a)
    ensures GroupConnected(p, master, b)
  {
    HandsetsMatchAlike(p, a, b);
  }

  // --------------------------------------------------------------- judging answers

  /** A calm world once its answers have been taken. */
  ghost predicate Rested(w: World, p: Profile, master: nat, devices: map<nat, DeviceStatus>) {
    && !w.state.editing && Loadable(w.state.library) && Current(w.state.library) == Some(p)
    && w.state.blocked == {} && w.state.pending == map[]
    && QueuesFree(w.registry) && w.registry.nextRequest >= 1
    && Snapshots(w.registry) == devices && GroupConnected(p, master, devices)
  }

  ghost function Judged(w: World, now: nat): World {
    var ids := w.registry.receivers.Keys;
    w.(registry := SettledRegistry(w.registry, w.state, ids), state := SettledState(w.registry, w.state, ids, now))
  }

  lemma CalmRests(w: World, p: Profile, master: nat, now: nat)
    requires Calm(w, p, master)
    ensures Rested(Judged(w, now), p, master, Snapshots(w.registry))
    ensures Fenced(Judged(w, now), master) == Fenced(w, master)
    ensures Unsolicited(Judged(w, now).registry, master) == Unsolicited(w.registry, master)
  {
    hide IsSole, Nearest, ValidProfile, Participating, IsAvailable;
    var j := Judged(w, now);
    assert j.state.pending == map[];
    assert j.state.blocked == {};
    assert Snapshots(j.registry) == Snapshots(w.registry);
  }

  lemma TickSteers(w: World, input: TickInput)
    requires !w.state.editing && QuietInput(input)
    ensures Tick(w, input) == Steer(Judged(w, input.now), Snapshots(w.registry), input)
  {
  }

  // ------------------------------------------------------ a group that is at target

  lemma {:induction false} NothingToServe(
    v: Served, devices: map<nat, DeviceStatus>, targets: seq<(nat, u16)>, now: nat)
    requires v.pending == map[] && v.blocked == {} && AtVolumes(devices, targets)
    ensures ServeAll(v, devices, targets, now) == v
    decreases |targets|
  {
    if targets != [] {
      assert AtTarget(devices, v.pending, v.blocked, targets[0]);
      NothingToServe(v, devices, targets[1..], now);
    }
  }

  /** The targets of a connected group are usable devices. */
  lemma TargetsAreUsable(p: Profile, master: nat, devices: map<nat, DeviceStatus>, index: u16)
    requires IsSole(p.master, devices, master)
    ensures forall t <- GroupTargets(p, master, devices, index) :: t.0 in devices && Adjustable(devices[t.0])
  {
    assert master in MatchingIds(p.master, devices);
    GroupTargetsAreCalibrated(p, master, devices, index);
    forall t | t in GroupTargets(p, master, devices, index)
      ensures t.0 in devices && Adjustable(devices[t.0])
    {
      assert IsCalibratedTarget(p, devices, index, t);
    }
  }

  lemma ApproveOpensAll(g: Registry, targets: seq<(nat, u16)>)
    requires forall t <- targets ::
      t.0 in Snapshots(g) && Adjustable(Snapshots(g)[t.0]) && Snapshots(g)[t.0].volume == t.1
    ensures WholeGroupOpen(Approve(g, Expected(Snapshots(g), targets)), targets)
  {
  }

  /** Serving a rested group that is at its volumes opens exactly its gates. */
  lemma ServeAtTarget(w: World, p: Profile, master: nat, devices: map<nat, DeviceStatus>, input: TickInput)
    requires Rested(w, p, master, devices) && QuietInput(input)
    requires AtVolumes(devices, GroupTargets(p, master, devices, p.volume))
    ensures var targets := GroupTargets(p, master, devices, p.volume);
            var r := Serve(w, p, master, devices, p.volume, input);
            && WholeGroupOpen(r.registry, targets)
            && r.registry == Approve(w.registry, Expected(devices, targets))
            && r.state.library == w.state.library && !r.state.editing && r.state.pending == map[]
            && r.state.blocked == {} && r.state.needsFence == w.state.needsFence
  {
    var targets := GroupTargets(p, master, devices, p.volume);
    var v := Served(w.registry, w.state.pending, w.state.blocked, true);
    NothingToServe(v, devices, targets, input.now);
    TargetsAreUsable(p, master, devices, p.volume);
    ApproveOpensAll(w.registry, targets);
  }

  lemma ApprovedIsQuiet(g: Registry, expected: map<nat, DeviceStatus>)
    requires QueuesFree(g)
    ensures var h := Approve(g, expected);
            && QueuesFree(h) && Snapshots(h) == Snapshots(g) && Acknowledge(h) == h && h.nextRequest == g.nextRequest
            && forall id :: HasPanelBarrier(h, id) == HasPanelBarrier(g, id) && Unsolicited(h, id) == Unsolicited(g, id)
  {
  }

  /** The gates a converged group should have open. */
  ghost function GroupOf(w: World, p: Profile, master: nat): seq<(nat, u16)>
    requires IsSole(p.master, Snapshots(w.registry), master)
  {
    GroupTargets(p, master, Snapshots(w.registry), p.volume)
  }

  /** From a converged world a tick opens exactly the group's gates and leaves the world
      converged, so that every later tick does the same. */
  lemma ConvergedTick(w: World, p: Profile, master: nat, input: TickInput)
    requires Converged(w, p, master) && QuietInput(input)
    ensures var r := Tick(w, input);
            && WholeGroupOpen(r.registry, GroupOf(w, p, master))
            && Acknowledge(r.registry) == r.registry && Snapshots(r.registry) == Snapshots(w.registry)
            && Converged(r, p, master)
  {
    var devices := Snapshots(w.registry);
    var j := Judged(w, input.now);
    CalmRests(w, p, master, input.now);
    TickSteers(w, input);
    assert Least(MatchingIds(p.master, devices)) == master;
    NearestOfAvailable(p, p.volume, Participating(p, devices));
    var o := Observe(j, master, devices);
    RestedObserved(j, p, master, devices);
    ServeAtTarget(o, p, master, devices, input);
    ApprovedIsQuiet(o.registry, Expected(devices, GroupTargets(p, master, devices, p.volume)));
  }

  lemma RestedObserved(w: World, p: Profile, master: nat, devices: map<nat, DeviceStatus>)
    requires Rested(w, p, master, devices)
    ensures Rested(Observe(w, master, devices), p, master, devices)
    ensures Unsolicited(Observe(w, master, devices).registry, master).None?
    ensures Fenced(Observe(w, master, devices), master) == Fenced(w, master)
  {
  }

  // ------------------------------------------------------------ asking and answering

  /** A calibrated target can be asked for its volume and will report it. */
  ghost predicate Askable(d: DeviceStatus, index: u16) {
    Adjustable(d) && CleanId(d.deviceId) && d.minimum <= index <= d.maximum <= MAX_INDEX
  }

  lemma DevicesAreValid(p: Profile)
    requires ValidProfile(p)
    ensures ValidDevice(p.master) && forall f <- p.followers :: ValidDevice(f.device) && ValidMapping(p, f)
  {
    assert Devices(p)[0] == p.master;
    forall f | f in p.followers
      ensures ValidDevice(f.device)
    {
      var k :| 0 <= k < |p.followers| && p.followers[k] == f;
      assert Devices(p)[k + 1] == f.device;
    }
  }

  lemma TargetsAreAskable(p: Profile, master: nat, devices: map<nat, DeviceStatus>, index: u16)
    requires ValidProfile(p) && IsSole(p.master, devices, master) && p.master.minimum <= index <= p.master.maximum
    ensures forall t <- GroupTargets(p, master, devices, index) :: t.0 in devices && Askable(devices[t.0], t.1)
  {
    assert master in MatchingIds(p.master, devices);
    DevicesAreValid(p);
    GroupTargetsAreCalibrated(p, master, devices, index);
    forall t | t in GroupTargets(p, master, devices, index)
      ensures t.0 in devices && Askable(devices[t.0], t.1)
    {
      assert IsCalibratedTarget(p, devices, index, t);
    }
  }

  /** `after` is `before` with one SetVolume queued. */
  ghost predicate Asked(before: Receiver, after: Receiver, request: nat, index: u16) {
    && after.controls == [SetVolume(request, index, RestoreSpeaker)]
    && after.capacity == before.capacity && after.connected == before.connected
    && after.device == before.device
  }

  /** `after` is `before` once its phone has set and reported `index`. */
  ghost predicate HasAnswered(before: Receiver, after: Receiver, request: nat, index: u16) {
    && after.controls == [] && after.capacity == before.capacity && after.connected == before.connected
    && before.device.Some? && after.device.Some? && SameHandset(after.device.value, before.device.value)
    && after.device.value.volume == index
    && request in after.replies && Applied(after.replies[request], index)
  }

  lemma AskedAnswers(before: Receiver, after: Receiver, request: nat, index: u16)
    requires Asked(before, after, request, index) && request != 0
    requires before.device.Some? && Askable(before.device.value, index)
    ensures HasAnswered(before, AckQueue(after), request, index)
    ensures AckQueue(after).panelBarrier == (if after.panelBarrier == Some(request) then None else after.panelBarrier)
    ensures AckQueue(after).unsolicited == after.unsolicited
  {
    AskedAndAcked(after, request, index, RestoreSpeaker);
  }

  // -------------------------------------------------------------- renewing a barrier

  /** One message is waiting in the whole registry: the master's request for its volume. */
  ghost predicate OnlyMasterAsked(g: Registry, master: nat, request: nat, index: u16) {
    forall id <- g.receivers ::
      g.receivers[id].controls == if id == master then [SetVolume(request, index, RestoreSpeaker)] else []
  }

  lemma FenceAsksOnce(w: World, p: Profile, master: nat, devices: map<nat, DeviceStatus>, now: nat)
    requires Rested(w, p, master, devices)
    ensures Nearest(p, p.volume, Participating(p, devices)).Some?
    ensures OnlyMasterAsked(DenyAll(Fence(w, p, master, devices, now).registry), master, w.registry.nextRequest,
                            Nearest(p, p.volume, Participating(p, devices)).value)
  {
    var request, index := FenceAsks(w, p, master, devices, now);
    assert master in MatchingIds(p.master, devices);
    PanelAsked(w.registry, master, index);
  }

  /** The first tick behind a barrier asks the master once; its receipt lifts the barrier
      and leaves the world calm with the same profile. */
  lemma FencedTick(w: World, p: Profile, master: nat, input: TickInput)
    requires Calm(w, p, master) && Fenced(w, master) && QuietInput(input)
    ensures var r := Tick(w, input);
            var a := r.(registry := Acknowledge(r.registry));
            && AllShut(r.registry)
            && Calm(a, p, master) && !Fenced(a, master) && Unsolicited(a.registry, master).None?
    ensures var index := Nearest(p, p.volume, Participating(p, Snapshots(w.registry)));
            index.Some? && OnlyMasterAsked(Tick(w, input).registry, master, w.registry.nextRequest, index.value)
  {
    var devices := Snapshots(w.registry);
    CalmRests(w, p, master, input.now);
    TickSteers(w, input);
    assert Least(MatchingIds(p.master, devices)) == master;
    FenceAnswers(Judged(w, input.now), p, master, devices, input.now);
    FenceAsksOnce(Judged(w, input.now), p, master, devices, input.now);
  }

  lemma FenceAsks(w: World, p: Profile, master: nat, devices: map<nat, DeviceStatus>, now: nat)
    returns (request: nat, index: u16)
    requires Rested(w, p, master, devices)
    ensures request == w.registry.nextRequest && request != 0
    ensures Nearest(p, p.volume, Participating(p, devices)) == Some(index)
    ensures p.master.minimum <= index <= p.master.maximum
    ensures var f := Fence(w, p, master, devices, now);
            && f.state == w.state.(masterSeen := f.state.masterSeen, needsFence := false,
                                   pending := map[master := Pending(request, index, now)])
            && f.registry == PanelRequest(w.registry, master, index).registry
            && PanelRequest(w.registry, master, index).request == Some(request)
  {
    request := w.registry.nextRequest;
    index := Nearest(p, p.volume, Participating(p, devices)).value;
    assert master in MatchingIds(p.master, devices);
  }

  lemma PanelAsked(g: Registry, master: nat, index: u16)
    requires QueuesFree(g) && master in g.receivers
    ensures var h := DenyAll(PanelRequest(g, master, index).registry);
            && Asked(g.receivers[master], h.receivers[master], g.nextRequest, index)
            && h.receivers[master].panelBarrier == Some(g.nextRequest) && h.receivers[master].unsolicited.None?
            && h.receivers.Keys == g.receivers.Keys && h.nextRequest == g.nextRequest + 1
            && forall k <- g.receivers :: k != master ==> h.receivers[k] == g.receivers[k].(playback := false)
  {
  }

  lemma PanelAnswered(g: Registry, master: nat, index: u16)
    requires QueuesFree(g) && g.nextRequest != 0
    requires master in Snapshots(g) && Askable(Snapshots(g)[master], index)
    ensures var a := Acknowledge(DenyAll(PanelRequest(g, master, index).registry));
            && QueuesFree(a) && SameHandsets(Snapshots(g), Snapshots(a)) && a.nextRequest >= 1
            && HasAnswered(g.receivers[master], a.receivers[master], g.nextRequest, index)
            && !HasPanelBarrier(a, master) && Unsolicited(a, master).None?
  {
    var h := DenyAll(PanelRequest(g, master, index).registry);
    PanelAsked(g, master, index);
    AskedAnswers(g.receivers[master], h.receivers[master], g.nextRequest, index);
    OthersIdle(g, h, master);
  }

  lemma FenceAnswers(w: World, p: Profile, master: nat, devices: map<nat, DeviceStatus>, now: nat)
    requires Rested(w, p, master, devices)
    ensures var f := Fence(w, p, master, devices, now);
            var a := f.(registry := Acknowledge(DenyAll(f.registry)));
            Calm(a, p, master) && !Fenced(a, master) && Unsolicited(a.registry, master).None?
  {
    var request, index := FenceAsks(w, p, master, devices, now);
    assert ValidProfile(p);
    TargetsAreAskable(p, master, devices, index);
    assert GroupTargets(p, master, devices, index)[0] == (master, index);
    PanelAnswered(w.registry, master, index);
    HandsetsConnectAlike(p, master, devices,
                         Snapshots(Acknowledge(DenyAll(PanelRequest(w.registry, master, index).registry))));
  }

  /** Acknowledging when only one receiver has been asked. */
  lemma OthersIdle(g: Registry, h: Registry, id: nat)
    requires QueuesFree(g) && id in g.receivers && g.receivers.Keys == h.receivers.Keys
    requires forall k <- g.receivers :: k != id ==> h.receivers[k] == g.receivers[k].(playback := false)
    requires exists request, index :: HasAnswered(g.receivers[id], AckQueue(h.receivers[id]), request, index)
    ensures QueuesFree(Acknowledge(h)) && SameHandsets(Snapshots(g), Snapshots(Acknowledge(h)))
    ensures forall k <- g.receivers :: k != id ==> Acknowledge(h).receivers[k] == h.receivers[k]
  {
    var a := Acknowledge(h);
    forall k | k in Snapshots(g)
      ensures k in Snapshots(a) && SameHandset(Snapshots(g)[k], Snapshots(a)[k])
    {
    }
  }

  // ------------------------------------------------------- asking the whole group

  predicate DistinctTargets(targets: seq<(nat, u16)>) {
    forall k, l | 0 <= k < l < |targets| :: targets[k].0 != targets[l].0
  }

  /** A target among `followers` reports the id of one of them. */
  lemma {:induction false} TargetIds(p: Profile, followers: seq<Follower>, devices: map<nat, DeviceStatus>, index: u16)
    ensures forall t <- Targets(p, followers, devices, index) ::
      t.0 in devices && exists f <- followers :: f.device.id == devices[t.0].deviceId
  {
    if followers != [] {
      TargetIds(p, followers[1..], devices, index);
      var f := followers[0];
      var ids := MatchingIds(f.device, devices);
      forall t | t in Targets(p, followers, devices, index)
        ensures t.0 in devices && exists g <- followers :: g.device.id == devices[t.0].deviceId
      {
        if t in Targets(p, followers[1..], devices, index) {
          var g :| g in followers[1..] && g.device.id == devices[t.0].deviceId;
          assert g in followers;
        } else {
          assert t.0 in ids && f in followers;
        }
      }
    }
  }

  predicate DistinctFollowers(followers: seq<Follower>) {
    forall k, l | 0 <= k < l < |followers| :: followers[k].device.id != followers[l].device.id
  }

  lemma {:induction false} TargetsAreDistinct(
    p: Profile, followers: seq<Follower>, devices: map<nat, DeviceStatus>, index: u16)
    requires DistinctFollowers(followers)
    ensures DistinctTargets(Targets(p, followers, devices, index))
  {
    if followers != [] {
      var rest := Targets(p, followers[1..], devices, index);
      TargetsAreDistinct(p, followers[1..], devices, index);
      TargetIds(p, followers[1..], devices, index);
      var ids := MatchingIds(followers[0].device, devices);
      if ids != {} {
        assert devices[Least(ids)].deviceId == followers[0].device.id;
        forall l | 0 <= l < |rest|
          ensures rest[l].0 != Least(ids)
        {
          assert rest[l] in rest;
        }
      }
    }
  }

  lemma GroupIsDistinct(p: Profile, master: nat, devices: map<nat, DeviceStatus>, index: u16)
    requires ValidProfile(p) && IsSole(p.master, devices, master)
    ensures DistinctTargets(GroupTargets(p, master, devices, index))
  {
    forall k, l | 0 <= k < l < |p.followers|
      ensures p.followers[k].device.id != p.followers[l].device.id
    {
      assert Devices(p)[k + 1].id != Devices(p)[l + 1].id;
    }
    TargetsAreDistinct(p, p.followers, devices, index);
    TargetIds(p, p.followers, devices, index);
    assert master in MatchingIds(p.master, devices);
    var rest := Targets(p, p.followers, devices, index);
    forall l | 0 <= l < |rest|
      ensures rest[l].0 != master
    {
      assert rest[l] in rest;
      var f :| f in p.followers && f.device.id == devices[rest[l].0].deviceId;
      var k :| 0 <= k < |p.followers| && p.followers[k] == f;
      assert Devices(p)[0].id != Devices(p)[k + 1].id;
    }
  }

  /** Nothing has been done about receiver `id` yet. */
  ghost predicate Untouched(g: Registry, v: Served, id: nat) {
    && (id in g.receivers ==> id in v.registry.receivers && v.registry.receivers[id] == g.receivers[id])
    && id !in v.pending && id !in v.blocked
  }

  /** Target `t` was at its volume and left alone, or has been asked for it. */
  ghost predicate Handled(g: Registry, v: Served, devices: map<nat, DeviceStatus>, t: (nat, u16)) {
    && t.0 in devices && t.0 in g.receivers && t.0 in v.registry.receivers
    && if devices[t.0].volume == t.1 then Untouched(g, v, t.0)
       else
         && t.0 in v.pending && v.pending[t.0].index == t.1 && v.pending[t.0].request >= g.nextRequest
         && Asked(g.receivers[t.0], v.registry.receivers[t.0], v.pending[t.0].request, t.1)
         && v.registry.receivers[t.0].panelBarrier == g.receivers[t.0].panelBarrier
         && v.registry.receivers[t.0].unsolicited == g.receivers[t.0].unsolicited
  }

  ghost predicate Progress(g: Registry, v: Served, devices: map<nat, DeviceStatus>,
                           done: seq<(nat, u16)>) {
    && v.blocked == {} && v.registry.receivers.Keys == g.receivers.Keys
    && v.registry.nextRequest >= g.nextRequest
    && (forall t <- done :: Handled(g, v, devices, t))
    && (forall id | (forall t <- done :: t.0 != id) :: Untouched(g, v, id))
    && (v.ready <==> AtVolumes(devices, done))
  }

  lemma ServeOneProgress(
    g: Registry, v: Served, devices: map<nat, DeviceStatus>, done: seq<(nat, u16)>, t: (nat, u16), now: nat)
    requires QueuesFree(g) && Progress(g, v, devices, done)
    requires t.0 in devices && t.0 in g.receivers && forall d <- done :: d.0 != t.0
    ensures Progress(g, ServeOne(v, devices, t, now), devices, done + [t])
  {
    var n := ServeOne(v, devices, t, now);
    assert Untouched(g, v, t.0);
    assert Handled(g, n, devices, t);
    forall d | d in done
      ensures Handled(g, n, devices, d)
    {
      assert Handled(g, v, devices, d);
    }
    forall id | forall d <- done + [t] :: d.0 != id
      ensures Untouched(g, n, id)
    {
      assert t in done + [t];
      assert forall d <- done :: d in done + [t];
      assert Untouched(g, v, id);
    }
  }

  lemma {:induction false} ServeAllProgress(
    g: Registry, v: Served, devices: map<nat, DeviceStatus>, done: seq<(nat, u16)>, todo: seq<(nat, u16)>, now: nat)
    requires QueuesFree(g) && Progress(g, v, devices, done) && DistinctTargets(done + todo)
    requires forall t <- todo :: t.0 in devices && t.0 in g.receivers
    ensures Progress(g, ServeAll(v, devices, todo, now), devices, done + todo)
    decreases |todo|
  {
    if todo == [] {
      assert done + todo == done;
    } else {
      var t := todo[0];
      forall d | d in done
        ensures d.0 != t.0
      {
        var k :| 0 <= k < |done| && done[k] == d;
        assert (done + todo)[k] == d && (done + todo)[|done|] == t;
      }
      ServeOneProgress(g, v, devices, done, t, now);
      assert done + todo == (done + [t]) + todo[1..];
      ServeAllProgress(g, ServeOne(v, devices, t, now), devices, done + [t], todo[1..], now);
    }
  }

  /** The same registry with other gates open. */
  ghost predicate SameButGates(g: Registry, h: Registry) {
    && g.receivers.Keys == h.receivers.Keys && g.nextRequest == h.nextRequest
    && forall id <- g.receivers :: h.receivers[id] == g.receivers[id].(playback := h.receivers[id].playback)
  }

  /** What a receiver is after a round of asking and answering. */
  ghost predicate RoundDone(g: Registry, v: Served, h: Registry, id: nat) {
    && id in g.receivers && id in h.receivers
    && h.receivers[id].controls == [] && h.receivers[id].connected && h.receivers[id].capacity >= 1
    && (g.receivers[id].panelBarrier.None? ==> h.receivers[id].panelBarrier.None?)
    && h.receivers[id].unsolicited == g.receivers[id].unsolicited
    && (match g.receivers[id].device
        case None => h.receivers[id].device.None?
        case Some(d) => h.receivers[id].device.Some? && SameHandset(d, h.receivers[id].device.value))
    && (id in v.pending ==>
          && v.pending[id].request in h.receivers[id].replies
          && Applied(h.receivers[id].replies[v.pending[id].request], v.pending[id].index)
          && h.receivers[id].device.Some? && h.receivers[id].device.value.volume == v.pending[id].index)
    && (id !in v.pending ==> h.receivers[id].device == g.receivers[id].device)
  }

  lemma AckUntouched(g: Registry, v: Served, x: Registry, id: nat)
    requires QueuesFree(g) && id in g.receivers && id in v.registry.receivers && Untouched(g, v, id)
    requires SameButGates(v.registry, x)
    ensures RoundDone(g, v, Acknowledge(x), id)
  {
  }

  lemma AckHandled(g: Registry, v: Served, x: Registry, devices: map<nat, DeviceStatus>, t: (nat, u16))
    requires QueuesFree(g) && g.nextRequest >= 1 && Snapshots(g) == devices
    requires Handled(g, v, devices, t) && Askable(devices[t.0], t.1)
    requires SameButGates(v.registry, x)
    ensures RoundDone(g, v, Acknowledge(x), t.0)
    ensures Acknowledge(x).receivers[t.0].device.Some? && Acknowledge(x).receivers[t.0].device.value.volume == t.1
  {
    if devices[t.0].volume == t.1 {
      AckUntouched(g, v, x, t.0);
    } else {
      var request := v.pending[t.0].request;
      assert Asked(g.receivers[t.0], x.receivers[t.0], request, t.1);
      AskedAnswers(g.receivers[t.0], x.receivers[t.0], request, t.1);
    }
  }

  ghost predicate AllAskable(devices: map<nat, DeviceStatus>, targets: seq<(nat, u16)>) {
    forall t <- targets :: t.0 in devices && Askable(devices[t.0], t.1)
  }

  lemma RoundAll(g: Registry, v: Served, x: Registry, devices: map<nat, DeviceStatus>, targets: seq<(nat, u16)>)
    requires QueuesFree(g) && g.nextRequest >= 1 && Snapshots(g) == devices
    requires Progress(g, v, devices, targets) && AllAskable(devices, targets) && SameButGates(v.registry, x)
    ensures forall id <- g.receivers :: RoundDone(g, v, Acknowledge(x), id)
    ensures Acknowledge(x).receivers.Keys == g.receivers.Keys
  {
    forall id | id in g.receivers
      ensures RoundDone(g, v, Acknowledge(x), id)
    {
      if t :| t in targets && t.0 == id {
        AckHandled(g, v, x, devices, t);
      } else {
        AckUntouched(g, v, x, id);
      }
    }
  }

  lemma RoundReaches(g: Registry, v: Served, x: Registry, devices: map<nat, DeviceStatus>, targets: seq<(nat, u16)>)
    requires QueuesFree(g) && g.nextRequest >= 1 && Snapshots(g) == devices
    requires Progress(g, v, devices, targets) && AllAskable(devices, targets) && SameButGates(v.registry, x)
    ensures AtVolumes(Snapshots(Acknowledge(x)), targets)
  {
    forall t | t in targets
      ensures t.0 in Snapshots(Acknowledge(x)) && Snapshots(Acknowledge(x))[t.0].volume == t.1
    {
      AckHandled(g, v, x, devices, t);
    }
  }

  lemma RoundSummary(g: Registry, v: Served, h: Registry, targets: seq<(nat, u16)>, devices: map<nat, DeviceStatus>)
    requires (forall id <- g.receivers :: RoundDone(g, v, h, id)) && h.receivers.Keys == g.receivers.Keys
    requires Progress(g, v, devices, targets)
    ensures QueuesFree(h) && Answered(h, v.pending) && SameHandsets(Snapshots(g), Snapshots(h))
    ensures forall id :: !HasPanelBarrier(g, id) ==> !HasPanelBarrier(h, id)
    ensures forall id :: Unsolicited(h, id) == Unsolicited(g, id)
  {
    forall id | id in v.pending
      ensures id in g.receivers
    {
      assert !Untouched(g, v, id);
      var t :| t in targets && t.0 == id;
      assert Handled(g, v, devices, t);
    }
    forall id | id in Snapshots(g)
      ensures id in Snapshots(h) && SameHandset(Snapshots(g)[id], Snapshots(h)[id])
    {
      assert RoundDone(g, v, h, id);
    }
    forall id | id in Snapshots(h)
      ensures id in Snapshots(g)
    {
      assert RoundDone(g, v, h, id);
    }
  }

  /** Concluding changes gates, the confirmed volume and the saving state, nothing else. */
  lemma ConcludeFields(
    w: World, ready: bool, p: Profile, index: u16, expected: map<nat, DeviceStatus>, input: TickInput)
    requires QuietInput(input)
    ensures var r := Conclude(w, ready, p, index, expected, input);
            && SameButGates(w.registry, r.registry)
            && r.state == w.state.(confirmed := r.state.confirmed, dirty := r.state.dirty, changed := r.state.changed)
  {
  }

  lemma GroupProgress(g: Registry, p: Profile, master: nat, devices: map<nat, DeviceStatus>, index: u16, now: nat)
    requires QueuesFree(g) && Snapshots(g) == devices && ValidProfile(p) && IsSole(p.master, devices, master)
    requires p.master.minimum <= index <= p.master.maximum
    ensures var targets := GroupTargets(p, master, devices, index);
            && AllAskable(devices, targets)
            && Progress(g, ServeAll(Served(g, map[], {}, true), devices, targets, now), devices, targets)
  {
    var targets := GroupTargets(p, master, devices, index);
    GroupIsDistinct(p, master, devices, index);
    TargetsAreAskable(p, master, devices, index);
    assert [] + targets == targets;
    ServeAllProgress(g, Served(g, map[], {}, true), devices, [], targets, now);
  }

  lemma ServeFields(w: World, p: Profile, master: nat, devices: map<nat, DeviceStatus>, index: u16, input: TickInput)
    returns (v: Served)
    requires QuietInput(input) && !w.state.editing && w.state.pending == map[] && w.state.blocked == {}
    ensures v == ServeAll(Served(w.registry, map[], {}, true), devices, GroupTargets(p, master, devices, index),
                          input.now)
    ensures var r := Serve(w, p, master, devices, index, input);
            && SameButGates(v.registry, r.registry)
            && r.state.pending == v.pending && r.state.blocked == v.blocked
            && r.state.library == Follow(w.state, p, index, input.now).library
            && !r.state.editing && r.state.needsFence == w.state.needsFence
  {
    var targets := GroupTargets(p, master, devices, index);
    v := ServeAll(Served(w.registry, map[], {}, true), devices, targets, input.now);
    var s := Follow(w.state, p, index, input.now);
    ConcludeFields(w.(registry := v.registry, state := s.(pending := v.pending, blocked := v.blocked)),
                   v.ready, p, index, Expected(devices, targets), input);
  }

  /** Serving, setting the gates and the phones' answers, from a rested world. */
  lemma ServeRound(w: World, p: Profile, master: nat, devices: map<nat, DeviceStatus>, index: u16, input: TickInput)
    returns (h: Registry)
    requires Rested(w, p, master, devices) && QuietInput(input)
    requires p.master.minimum <= index <= p.master.maximum
    ensures var r := Serve(w, p, master, devices, index, input);
            && h == Acknowledge(r.registry) && QueuesFree(h) && h.nextRequest >= 1
            && Answered(h, r.state.pending) && r.state.blocked == {}
            && SameHandsets(devices, Snapshots(h))
            && AtVolumes(Snapshots(h), GroupTargets(p, master, devices, index))
            && (!HasPanelBarrier(w.registry, master) ==> !HasPanelBarrier(h, master))
            && Unsolicited(h, master) == Unsolicited(w.registry, master)
            && r.state.library == Follow(w.state, p, index, input.now).library
            && !r.state.editing && r.state.needsFence == w.state.needsFence
  {
    var v := ServeFields(w, p, master, devices, index, input);
    var targets := GroupTargets(p, master, devices, index);
    var r := Serve(w, p, master, devices, index, input);
    assert ValidProfile(p);
    GroupProgress(w.registry, p, master, devices, index, input.now);
    RoundAll(w.registry, v, r.registry, devices, targets);
    RoundReaches(w.registry, v, r.registry, devices, targets);
    h := Acknowledge(r.registry);
    RoundSummary(w.registry, v, h, targets, devices);
  }

  /** Without a barrier to renew, one tick and the phones' answers bring every device to
      its volume. */
  lemma UnfencedTick(w: World, p: Profile, master: nat, input: TickInput) returns (q: Profile)
    requires Calm(w, p, master) && !Fenced(w, master) && QuietInput(input)
    ensures var r := Tick(w, input);
            Converged(r.(registry := Acknowledge(r.registry)), q, master)
    ensures q == p.(volume := q.volume)
  {
    var devices := Snapshots(w.registry);
    var j := Judged(w, input.now);
    CalmRests(w, p, master, input.now);
    TickSteers(w, input);
    assert Least(MatchingIds(p.master, devices)) == master;
    var o := Observe(j, master, devices);
    RestedObserved(j, p, master, devices);
    var index := Nearest(p, Wanted(j.registry, j.state, p, master), Participating(p, devices)).value;
    assert Tick(w, input) == Serve(o, p, master, devices, index, input);
    q := p.(volume := index);
    var h := ServeRound(o, p, master, devices, index, input);
    FollowMovesCurrent(o.state, p, index, input.now);
    WithVolumeLoadable(o.state.library, p.id, index);
    HandsetsConverge(p, master, devices, Snapshots(h), index);
  }

  /** A group at its volumes stays one when only volumes, names and requests differ. */
  lemma HandsetsConverge(
    p: Profile, master: nat, a: map<nat, DeviceStatus>, b: map<nat, DeviceStatus>, index: u16)
    requires SameHandsets(a, b) && GroupConnected(p, master, a) && IsAvailable(p, Participating(p, a), index)
    requires AtVolumes(b, GroupTargets(p, master, a, index))
    ensures var q := p.(volume := index);
            && GroupConnected(q, master, b) && IsAvailable(q, Participating(q, b), index)
            && AtVolumes(b, GroupTargets(q, master, b, index))
  {
    var q := p.(volume := index);
    HandsetsMatchAlike(p, a, b);
    HandsetsTargetAlike(p, p.followers, a, b, index);
    TargetsIgnoreVolume(p, p.followers, b, index, index);
    assert Participating(q, b) == Participating(p, b);
    var i: u16 :| IsAvailable(p, Participating(p, a), i);
    assert IsAvailable(q, Participating(q, b), i);
  }

  // ------------------------------------------------------------------- the theorem

  /** A tick, and then every phone acknowledges what it has been asked. */
  ghost function Round(w: World, input: TickInput): World {
    var r := Tick(w, input);
    r.(registry := Acknowledge(r.registry))
  }

  ghost function Rounds(w: World, inputs: seq<TickInput>): World {
    if inputs == [] then w else Round(Rounds(w, inputs[..|inputs| - 1]), inputs[|inputs| - 1])
  }

  ghost predicate AllQuiet(inputs: seq<TickInput>) {
    forall k | 0 <= k < |inputs| :: QuietInput(inputs[k])
  }

  lemma ConvergedRound(w: World, p: Profile, master: nat, input: TickInput)
    requires Converged(w, p, master) && QuietInput(input)
    ensures Converged(Round(w, input), p, master)
  {
    ConvergedTick(w, p, master, input);
    assert Round(w, input) == Tick(w, input);
  }

  lemma TwoRoundsConverge(w: World, p: Profile, master: nat, a: TickInput, b: TickInput) returns (q: Profile)
    requires Calm(w, p, master) && QuietInput(a) && QuietInput(b)
    ensures Converged(Round(Round(w, a), b), q, master) && q == p.(volume := q.volume)
  {
    if Fenced(w, master) {
      FencedTick(w, p, master, a);
      q := UnfencedTick(Round(w, a), p, master, b);
    } else {
      q := UnfencedTick(w, p, master, a);
      ConvergedRound(Round(w, a), q, master, b);
    }
  }

  lemma RoundsOfTwo(w: World, inputs: seq<TickInput>)
    requires |inputs| == 2
    ensures Rounds(w, inputs) == Round(Round(w, inputs[0]), inputs[1])
  {
    var first := inputs[..1];
    assert first[0] == inputs[0] && first[..0] == [];
    assert Rounds(w, first) == Round(Rounds(w, first[..0]), first[0]);
  }

  lemma {:induction false} RoundsConverge(w: World, p: Profile, master: nat, inputs: seq<TickInput>)
    returns (q: Profile)
    requires Calm(w, p, master) && AllQuiet(inputs) && |inputs| >= 2
    ensures Converged(Rounds(w, inputs), q, master) && q == p.(volume := q.volume)
    decreases |inputs|
  {
    if |inputs| == 2 {
      RoundsOfTwo(w, inputs);
      q := TwoRoundsConverge(w, p, master, inputs[0], inputs[1]);
      SameWorld(Round(Round(w, inputs[0]), inputs[1]), Rounds(w, inputs), q, master);
    } else {
      var front, last := inputs[..|inputs| - 1], inputs[|inputs| - 1];
      q := RoundsConverge(w, p, master, front);
      ConvergedRound(Rounds(w, front), q, master, last);
      SameWorld(Round(Rounds(w, front), last), Rounds(w, inputs), q, master);
    }
  }

  lemma SameWorld(v: World, w: World, p: Profile, master: nat)
    requires v == w && Converged(v, p, master)
    ensures Converged(w, p, master)
  {
  }

  /** Bounded convergence: from a calm world, at whatever times the ticks come, the third
      and every later tick has exactly the gates of the whole group open, each device at
      the calibrated volume, under the same profile at some calibrated index. */
  lemma GroupConverges(w: World, p: Profile, master: nat, inputs: seq<TickInput>, last: TickInput) returns (q: Profile)
    requires Calm(w, p, master) && AllQuiet(inputs) && QuietInput(last) && |inputs| >= 2
    ensures q == p.(volume := q.volume)
    ensures var r := Tick(Rounds(w, inputs), last);
            && Current(r.state.library) == Some(q)
            && IsSole(q.master, Snapshots(r.registry), master)
            && WholeGroupOpen(r.registry, GroupTargets(q, master, Snapshots(r.registry), q.volume))
  {
    q := RoundsConverge(w, p, master, inputs);
    ConvergedTick(Rounds(w, inputs), q, master, last);
  }
}
